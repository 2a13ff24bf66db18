/** What a send request does when nobody interferes, answer by answer: the exact log, rows and calls it
    leaves on either rail. The results about all interleavings are in `Theorems`; these say that each
    await does what it is for. */
module SendRuns {
  import opened Primitives
  import opened Amounts
  import opened Outbox
  import opened Commits
  import opened Protocol
  import opened Invariant
  import opened Steps
  import opened Theorems
  import opened RunStores
  import World
  import P = Payments
  import I = Invoices

  // ---- The request ----

  /** Lookup, validation, and the transaction that stores the intent. */
  function RequestPass(sender: Wallet, msat: Option<U64>, bolt: string, now: Timestamp): seq<Step> {
    [SendRequest(0, sender, msat, bolt)] + [Advance(0, At(now))] + [Draw(0)] + [Advance(0, At(now))]
  }

  /** The stored intent of a payment of `amount`. */
  function Intended(s: Shared, sender: Wallet, amount: U64, now: Timestamp): Shared {
    s.(nextSeq := s.nextSeq + 1, owner := Some(0),
       pay := [P.WasInitiated(s.hash, sender, amount, MaxFor(amount), now)],
       rows := s.rows + [Row(s.nextSeq, s.hash, PaymentInitiated(Sats(amount), MaxFor(amount)))])
  }

  /** On the LN rail a request stores its intent, for the invoice's amount rounded up to a satoshi, exactly
      when the hash is new, the invoice carries an amount and is not empty, and the amount fits the
      column; otherwise nothing is stored or published. */
  lemma RequestStoresIntent(s: Shared, sender: Wallet, msat: Option<U64>, bolt: string, now: Timestamp)
    returns (v: P.PaymentView)
    requires s.inv == [] && (msat.Some? ==> msat.value <= ROUNDABLE_MAX)
    ensures var d := Run(Cell(s, map[]), RequestPass(sender, msat, bolt, now));
            if s.pay == [] && msat.Some? && msat.value > 0 && bolt != "" && EncodeBigint(RoundUpToSat(msat.value)).Some?
            then
              var amount := RoundUpToSat(msat.value);
              && d == Alone(Goto(Intended(s, sender, amount, now), Created(v)))
              && IsSatCeiling(msat.value, amount) && P.Hydrate(d.s.pay) == Some(v)
            else d.actors == map[] && d.s.(nextSeq := s.nextSeq) == s
  {
    hide Run, P.Hydrate, RoundUpToSat, Sats;
    var c, decoded, begun := Cell(s, map[]), P.Decode(s.hash, msat, bolt), [SendRequest(0, sender, msat, bolt)];
    BeginAlone(s, SendRequest(0, sender, msat, bolt));
    AdvanceAlone(c, begun, s, Request(sender, decoded), At(now));
    var asked := begun + [Advance(0, At(now))];
    if msat.Some? {
      RoundUpIsCeilingExactlyWhenRoundable(msat.value);
    }
    I.NothingToHydrate();
    var r := Route(s, sender, decoded, At(now));
    v := P.PaymentView(P.Header(0, 0, 0, 0, 0), P.Initiated, None, None, None, []);
    if r.next.None? {
      DrawGone(c, asked, s);
      AdvanceGone(c, asked + [Draw(0)], s, At(now));
    } else {
      v := RequestCommits(c, asked, s, r.next.value.np, now);
    }
  }

  lemma RequestCommits(c: Cell, asked: seq<Step>, s: Shared, np: P.NewPayment, now: Timestamp)
    returns (v: P.PaymentView)
    requires Run(c, asked) == Alone(Goto(s, Creating(np, None)))
    requires np.hash == s.hash && np.maxFee == MaxFor(np.amount) && np.at == now
    ensures var d := Run(c, asked + [Draw(0)] + [Advance(0, At(now))]);
            if s.pay == [] && EncodeBigint(np.amount).Some?
            then d == Alone(Goto(Intended(s, np.wallet, np.amount, now), Created(v))) && P.Hydrate(d.s.pay) == Some(v)
            else d.actors == map[] && d.s.(nextSeq := s.nextSeq) == s
  {
    hide Run, P.Hydrate, MaxFor, Sats;
    DrawAlone(c, asked, s, Creating(np, None));
    var s1 := s.(nextSeq := s.nextSeq + 1);
    AdvanceAlone(c, asked + [Draw(0)], s1, Creating(np, Some(s.nextSeq)), At(now));
    P.StateOfGrammar(P.IntoEvents(np));
    v := P.Hydrate(P.IntoEvents(np)).value;
    if EncodeBigint(np.amount).Some? {
      FeeCapFits(np.amount);
    }
  }

  // ---- AuthorizeSpend ----

  function Refusal(auth: AuthReply): FailureReason
    requires !auth.Approved?
  {
    if auth.Declined? then auth.declineReason else Other(auth.detail)
  }

  /** The cell after a payment's inline terminal write. */
  function Ended(s: Shared, now: Timestamp, e: P.PaymentEvent, body: Body): Shared {
    s.(nextSeq := s.nextSeq + 1, pay := s.pay + [P.WentPending(now), e],
       rows := s.rows + [Row(s.nextSeq, s.hash, body)])
  }

  lemma CreatedIsFresh(s: Shared, v: P.PaymentView)
    requires Core(s) && ActorOk(s, 0, Created(v)) && !Exposed(s)
    ensures s.holds == [] && s.sends == 0 && v.events == s.pay && |s.pay| == 1 && LnLog(s.pay) && P.Grammar(s.pay)
    ensures P.Hydrate(s.pay) == Some(v) && v.header.amount == s.pay[0].amount && v.header.maxFee == s.pay[0].maxFee
  {
    hide PayCore, LndInvCore, IntraledgerCore, RecvCore, RowsCore, P.Hydrate;
    P.StateOfGrammar(v.events);
  }

  /** AuthorizeSpend asks for a hold of amount plus cap. Approved, the request goes on to LND; declined or
      failed, the payment is failed for exactly that reason, with its row, and LND is never called. */
  lemma AuthorizeAnswered(s: Shared, v: P.PaymentView, auth: AuthReply, now: Timestamp)
    requires Core(s) && ActorOk(s, 0, Created(v)) && !Exposed(s)
    ensures var c := Alone(Goto(s, Created(v)));
            var held := s.(holds := [Hold(HoldSat(s.pay[0].amount, s.pay[0].maxFee), auth)]);
            var sats := Sats(s.pay[0].amount);
            if auth.Approved? then Run(c, [Advance(0, At(now).(auth := auth))]) == Alone(Goto(held, Holding(v)))
            else
              && held.sends == 0
              && Run(c, [Advance(0, At(now).(auth := auth))] + [Draw(0)] + [Advance(0, CALM)]) ==
                   Cell(Ended(held, now, P.WasFailed(now, Refusal(auth)), PaymentFailed(sats, Refusal(auth))), map[])
  {
    hide Core, ActorOk, Run, P.Hydrate, P.MarkPending, P.Fail, FailInline, HoldSat;
    CreatedIsFresh(s, v);
    var c, env := Alone(Goto(s, Created(v))), At(now).(auth := auth);
    RunNothing(c);
    assert [] + [Advance(0, env)] == [Advance(0, env)];
    AdvanceAlone(c, [], s, Created(v), env);
    var held := s.(holds := [Hold(HoldSat(s.pay[0].amount, s.pay[0].maxFee), auth)]);
    assert s.holds + held.holds == held.holds;
    if !auth.Approved? {
      InlineWriters(s.pay, 0, 0, Refusal(auth), now);
      FinishPay(c, [Advance(0, env)], held, v, FailInline(v, Refusal(auth), now).value);
    }
  }

  // ---- LND's answer ----

  /** LND takes the call, may or may not resolve the payment, and answers with its first message. */
  function GoodAnswer(resolves: Option<LndPayment>, reply: SendReply, hasPreimage: bool, now: Timestamp): seq<Step> {
    [Advance(0, CALM)]
    + (if resolves.Some? then [PaymentResolves(resolves.value)] else [])
    + [Advance(0, At(now).(reply := reply, hasPreimage := hasPreimage))] + [Draw(0)] + [Advance(0, CALM)]
  }

  /** What the answer leads to: nothing yet, LND's outcome with its row, or for a success without its
      preimage an error that stores nothing. */
  function Answered(s: Shared, answer: LndPayment, hasPreimage: bool, now: Timestamp): Shared
    requires |s.pay| == 1 && s.pay[0].WasInitiated?
  {
    var sats := Sats(s.pay[0].amount);
    match answer
    case Unknown => s
    case InFlight => s.(nextSeq := s.nextSeq + 1, pay := s.pay + [P.WentPending(now)])
    case Succeeded(p, f) =>
      if hasPreimage then Ended(s, now, P.WasCompleted(now, p, f), PaymentCompleted(sats, p, f)) else s
    case LndFailed(r) => Ended(s, now, P.WasFailed(now, r), PaymentFailed(sats, r))
  }

  /** From any approved hold, LND's good answer is stored as it is: a payment LND has settled is Completed
      with LND's preimage and fee, one it has failed is Failed with LND's reason, each with its one
      row, and one that is in flight, or was when LND answered, is Pending without a row. */
  lemma GoodAnswerIsStored(s: Shared, v: P.PaymentView, resolves: Option<LndPayment>, reply: SendReply,
                           hasPreimage: bool, now: Timestamp)
    requires Core(s) && ActorOk(s, 0, Holding(v)) && !Exposed(s)
    requires reply.FirstMessage? || reply.InFlightMessage?
    requires resolves.Some? ==> resolves.value.Succeeded? || resolves.value.LndFailed?
    ensures |s.pay| == 1 && s.pay[0].WasInitiated?
    ensures var lnd := if resolves.Some? then resolves.value else InFlight;
            var sent := s.(sends := 1, taken := true, lndPay := lnd);
            Run(Alone(Goto(s, Holding(v))), GoodAnswer(resolves, reply, hasPreimage, now)) ==
              Cell(Answered(sent, if reply.InFlightMessage? then InFlight else lnd, hasPreimage, now), map[])
  {
    hide Core, ActorOk, Run, P.Hydrate, P.Grammar, Answered, CommitPending, SettleInline, FailInline;
    var c, env := Alone(Goto(s, Holding(v))), At(now).(reply := reply, hasPreimage := hasPreimage);
    HoldingIsFresh(s, v);
    NotSentYet(s, v);
    RunNothing(c);
    var done := [Advance(0, CALM)];
    assert [] + done == done;
    AdvanceAlone(c, [], s, Holding(v), CALM);
    var s1 := CallLnd(s, v, CALM).s;
    if resolves.Some? {
      SurroundingsAlone(c, done, s1, Sending(v), resolves.value);
      done := done + [PaymentResolves(resolves.value)];
      s1 := s1.(lndPay := resolves.value);
    } else {
      assert done + [] == done;
    }
    AdvanceAlone(c, done, s1, Sending(v), env);
    AnswerCommits(c, done + [Advance(0, env)], s1, v, env);
  }

  lemma NotSentYet(s: Shared, v: P.PaymentView)
    requires ActorOk(s, 0, Holding(v))
    ensures s.sends == 0
  {
  }

  lemma AnswerCommits(c: Cell, done: seq<Step>, s: Shared, v: P.PaymentView, env: Env)
    requires |s.pay| == 1 && P.Grammar(s.pay) && P.Hydrate(s.pay) == Some(v) && !s.lndPay.Unknown?
    requires env.reply.FirstMessage? || env.reply.InFlightMessage?
    requires Run(c, done) == Alone(HearLnd(s, v, env))
    ensures Run(c, done + [Draw(0)] + [Advance(0, CALM)]) ==
              Cell(Answered(s, if env.reply.InFlightMessage? then InFlight else s.lndPay, env.hasPreimage, env.now),
                   map[])
  {
    hide Run, P.Hydrate, CommitPending, SettleInline, FailInline, Sats;
    var answer := if env.reply.InFlightMessage? then InFlight else s.lndPay;
    var (p, f) := if answer.Succeeded? then (answer.preimage, answer.fees) else (0, 0);
    InlineWriters(s.pay, p, f, if answer.LndFailed? then answer.reason else Timeout, env.now);
    if answer.InFlight? {
      FinishPending(c, done, s, v, env.now);
    } else if answer.Succeeded? && !env.hasPreimage {
      DrawGone(c, done, s);
      AdvanceGone(c, done + [Draw(0)], s, CALM);
    } else if answer.Succeeded? {
      FinishPay(c, done, s, v, SettleInline(v, p, f, env.now).value);
    } else {
      FinishPay(c, done, s, v, FailInline(v, answer.reason, env.now).value);
    }
  }

  /** `transition_to_pending`: no row; the number drawn is lost. */
  lemma FinishPending(c: Cell, done: seq<Step>, s: Shared, v: P.PaymentView, now: Timestamp)
    requires Run(c, done) == Alone(Goto(s, PayTx(v, PayWrite([P.WentPending(now)], None), None)))
    requires |s.pay| == |v.events|
    ensures Run(c, done + [Draw(0)] + [Advance(0, CALM)]) ==
              Cell(s.(nextSeq := s.nextSeq + 1, pay := s.pay + [P.WentPending(now)]), map[])
  {
    var w := PayWrite([P.WentPending(now)], None);
    DrawAlone(c, done, s, PayTx(v, w, None));
    AdvanceAlone(c, done + [Draw(0)], s.(nextSeq := s.nextSeq + 1), PayTx(v, w, Some(s.nextSeq)), CALM);
  }

  // ---- A whole send ----

  lemma ReachesInv(s: Shared, steps: seq<Step>, t: Shared, a: Actor)
    requires Core(s) && Run(Cell(s, map[]), steps) == Alone(Goto(t, a))
    ensures Core(t) && ActorOk(t, 0, a)
  {
    hide Core, ActorOk, Run;
    RunKeepsInv(Cell(s, map[]), steps);
    var d := Run(Cell(s, map[]), steps);
    assert 0 in d.actors;
  }

  function SendPass(sender: Wallet, msat: U64, bolt: string, resolves: Option<LndPayment>, now: Timestamp): seq<Step> {
    RequestPass(sender, Some(msat), bolt, now) + [Advance(0, At(now).(auth := Approved))]
    + GoodAnswer(resolves, FirstMessage, true, now)
  }

  /** A send for a new hash that is approved and answered leaves the intent for the invoice's amount
      rounded up to a satoshi, a hold of exactly that amount plus its fee cap, and LND's outcome. */
  lemma SendRunsToTheEnd(s: Shared, sender: Wallet, msat: U64, bolt: string, resolves: Option<LndPayment>,
                         now: Timestamp)
    requires Reachable(s) && s.pay == [] && s.inv == [] && !Exposed(s)
    requires 0 < msat <= ROUNDABLE_MAX && bolt != "" && EncodeBigint(RoundUpToSat(msat)).Some?
    requires resolves.Some? ==> resolves.value.Succeeded? || resolves.value.LndFailed?
    ensures var amount := RoundUpToSat(msat);
            var d := Run(Cell(s, map[]), SendPass(sender, msat, bolt, resolves, now));
            var first := P.WasInitiated(s.hash, sender, amount, MaxFor(amount), now);
            && d.actors == map[] && d.s.sends == 1
            && |d.s.holds| == 1 && d.s.holds[0].reply == Approved
            && d.s.holds[0].sats * 1000 == amount + MaxFor(amount) && IsSatCeiling(msat, amount)
            && d.s.pay == (match resolves
                           case None => [first, P.WentPending(now)]
                           case Some(Succeeded(p, f)) => [first, P.WentPending(now), P.WasCompleted(now, p, f)]
                           case Some(LndFailed(r)) => [first, P.WentPending(now), P.WasFailed(now, r)]
                           case _ => [])
            && Bodies(PayRows(d.s.rows)) == Bodies(PayRows(s.rows)) + [PaymentInitiated(Sats(amount), MaxFor(amount))]
                 + (match resolves
                    case Some(Succeeded(p, f)) => [PaymentCompleted(Sats(amount), p, f)]
                    case Some(LndFailed(r)) => [PaymentFailed(Sats(amount), r)]
                    case _ => [])
  {
    hide Reachable, Core, ActorOk, Run, P.Hydrate, MaxFor, RoundUpToSat, HoldSat, Sats, PayRows,
      RequestPass, GoodAnswer;
    ReachableIsCore(s);
    var c, amount, request := Cell(s, map[]), RoundUpToSat(msat), RequestPass(sender, Some(msat), bolt, now);
    var v := RequestStoresIntent(s, sender, Some(msat), bolt, now);
    var stored := Intended(s, sender, amount, now);
    ReachesInv(s, request, stored, Created(v));
    NothingCalledYet(s);
    AuthorizeAnswered(stored, v, Approved, now);
    var held := stored.(holds := [Hold(HoldSat(amount, MaxFor(amount)), Approved)]);
    var asked := request + [Advance(0, At(now).(auth := Approved))];
    RunThen(c, request, [Advance(0, At(now).(auth := Approved))]);
    ReachesInv(s, asked, held, Holding(v));
    RunThen(c, asked, GoodAnswer(resolves, FirstMessage, true, now));
    GoodAnswerIsStored(held, v, resolves, FirstMessage, true, now);
    FeeCapFits(amount);
    WholeHoldIsExact(amount, MaxFor(amount));
    RowsOfSend(s, stored.rows[|s.rows|], Row(0, s.hash, PaymentInitiated(0, 0)));
    var d := Run(c, SendPass(sender, msat, bolt, resolves, now)).s;
    if resolves.Some? {
      RowsOfSend(s, stored.rows[|s.rows|], d.rows[|d.rows| - 1]);
    }
  }

  lemma NothingCalledYet(s: Shared)
    requires Core(s) && s.pay == []
    ensures s.holds == [] && s.sends == 0 && !s.answerBad
  {
  }

  lemma RowsOfSend(s: Shared, first: Row, second: Row)
    requires IsPaymentSide(first.body) && IsPaymentSide(second.body)
    ensures Bodies(PayRows(s.rows + [first])) == Bodies(PayRows(s.rows)) + [first.body]
    ensures Bodies(PayRows(s.rows + [first] + [second])) == Bodies(PayRows(s.rows)) + [first.body] + [second.body]
  {
    SidesOfAppend(s.rows, first);
    SidesOfAppend(s.rows + [first], second);
  }

  // ---- The intraledger rail ----

  /** A transfer from its request to its transaction. */
  function TransferPass(sender: Wallet, msat: Option<U64>, bolt: string, auth: AuthReply, cancelOk: bool, amt: U64,
                        commits: bool, now: Timestamp): seq<Step>
  {
    [SendRequest(0, sender, msat, bolt)] + [Advance(0, At(now))] + [Advance(0, At(now).(auth := auth))]
    + [Advance(0, At(now).(ok := cancelOk, amt := amt))] + Finishing(commits, now)
  }

  /** The guards before anything is called: the invoice is stored, open and unexpired, of another wallet,
      and some amount is known, is not zero, and is not contradicted. */
  predicate Admitted(s: Shared, sender: Wallet, msat: Option<U64>, bolt: string, now: Timestamp) {
    && |s.inv| == 1 && s.inv[0].WasCreated? && s.inv[0].wallet != sender && now < s.inv[0].expiryAt && bolt != ""
    && (s.inv[0].amount.Some? || msat.Some?)
    && (s.inv[0].amount.Some? && msat.Some? ==> RoundUpToSat(s.inv[0].amount.value) == RoundUpToSat(msat.value))
    && (s.inv[0].amount.Some? ==> RoundUpToSat(s.inv[0].amount.value) != 0)
    && (msat.Some? ==> RoundUpToSat(msat.value) != 0)
  }

  /** The invoice's committed amount, or else the request's. */
  function TransferAmount(s: Shared, msat: Option<U64>): U64
    requires |s.inv| == 1 && s.inv[0].WasCreated? && (s.inv[0].amount.Some? || msat.Some?)
  {
    RoundUpToSat(if s.inv[0].amount.Some? then s.inv[0].amount.value else msat.value)
  }

  predicate Cancelable(l: LndInvoice) {
    l.LndOpen? || l.Accepted? || l.LndCanceled?
  }

  /** The cell after AuthorizeSpend. */
  function Authorized(s: Shared, amount: U64, auth: AuthReply): Shared {
    s.(transfers := s.transfers + [Hold(WholeSat(amount), auth)])
  }

  /** After LND's invoice is cancelled; `amt` is what LND then reports as paid. */
  function Canceled(s: Shared, amt: U64): Shared {
    if s.lndInv.LndOpen? || s.lndInv.Accepted? then s.(lndInv := LndCanceled(amt)) else s
  }

  /** After the one transaction. */
  function Transferred(s: Shared, sender: Wallet, amount: U64, now: Timestamp): Shared
    requires |s.inv| == 1 && s.inv[0].WasCreated?
  {
    s.(pay := [P.WasInitiated(s.hash, sender, amount, 0, now), P.WasCompleted(now, s.inv[0].preimage, 0)],
       inv := s.inv + [I.WasSettledIntraledger(now)],
       rows := s.rows + [Row(s.nextSeq, s.hash, IntraledgerCompleted(Sats(amount), sender, s.inv[0].wallet, amount))])
  }

  function TransferResult(s: Shared, sender: Wallet, msat: Option<U64>, bolt: string, auth: AuthReply, cancelOk: bool,
                          amt: U64, commits: bool, now: Timestamp): Shared
  {
    if !Admitted(s, sender, msat, bolt, now) then s
    else
      var amount := TransferAmount(s, msat);
      var called := Authorized(s, amount, auth);
      if !auth.Approved? then called
      else
        var canceled := Canceled(called, amt);
        if !cancelOk || !Cancelable(s.lndInv) || !commits || s.pay != [] || EncodeBigint(amount).None? then canceled
        else Transferred(canceled, sender, amount, now)
  }

  /** A transfer, run alone from any stored invoice: a request that is not admitted calls nobody; one that
      Symphony declines or fails to answer leaves nothing but that call; only an approved one cancels
      at LND, and only a cancelled one is stored, as a completed payment of the committed amount, a
      settled invoice and its row together. */
  lemma TransferRuns(s: Shared, sender: Wallet, msat: Option<U64>, bolt: string, auth: AuthReply, cancelOk: bool,
                     amt: U64, commits: bool, now: Timestamp)
    requires s.inv != [] && I.Grammar(s.inv) && (msat.Some? ==> msat.value <= ROUNDABLE_MAX)
    ensures var d := Run(Cell(s, map[]), TransferPass(sender, msat, bolt, auth, cancelOk, amt, commits, now));
            && d.actors == map[]
            && d.s.(nextSeq := s.nextSeq) == TransferResult(s, sender, msat, bolt, auth, cancelOk, amt, commits, now)
  {
    hide Run, I.Hydrate, I.Grammar, RoundUpToSat, WholeSat, Sats, Finishing, Admitted, TransferAmount;
    var c, begun := Cell(s, map[]), [SendRequest(0, sender, msat, bolt)];
    var decoded := P.Decode(s.hash, msat, bolt);
    BeginAlone(s, SendRequest(0, sender, msat, bolt));
    AdvanceAlone(c, begun, s, Request(sender, decoded), At(now));
    var r := RouteAdmits(s, sender, msat, bolt, now);
    var asked := begun + [Advance(0, At(now))];
    var env, env2 := At(now).(auth := auth), At(now).(ok := cancelOk, amt := amt);
    if r.None? {
      AdvanceGone(c, asked, s, env);
      AdvanceGone(c, asked + [Advance(0, env)], s, env2);
      FinishGone(c, asked + [Advance(0, env)] + [Advance(0, env2)], s, commits, now);
    } else {
      var TransferAuthorize(i, np) := r.value;
      AdvanceAlone(c, asked, s, r.value, env);
      var s1 := Authorized(s, np.amount, auth);
      if auth.Approved? {
        TransferCancels(c, asked + [Advance(0, env)], s1, i, np, env2, commits, now);
      } else {
        AdvanceGone(c, asked + [Advance(0, env)], s1, env2);
        FinishGone(c, asked + [Advance(0, env)] + [Advance(0, env2)], s1, commits, now);
      }
    }
  }

  lemma RouteAdmits(s: Shared, sender: Wallet, msat: Option<U64>, bolt: string, now: Timestamp)
    returns (r: Option<Actor>)
    requires s.inv != [] && I.Grammar(s.inv)
    ensures Route(s, sender, P.Decode(s.hash, msat, bolt), At(now)) == After(s, r)
    ensures r.Some? <==> Admitted(s, sender, msat, bolt, now)
    ensures r.Some? ==>
              && |s.inv| == 1 && s.inv[0].WasCreated?
              && r.value.TransferAuthorize? && I.Consistent(r.value.i) && r.value.i.events == s.inv
              && r.value.i.header.preimage == s.inv[0].preimage && r.value.i.header.wallet == s.inv[0].wallet
              && r.value.np == P.NewPayment(s.hash, sender, TransferAmount(s, msat), 0, now)
  {
    hide RoundUpToSat, I.Hydrate;
    I.StateOfGrammar(s.inv);
    r := Route(s, sender, P.Decode(s.hash, msat, bolt), At(now)).next;
  }

  lemma TransferCancels(c: Cell, steps: seq<Step>, s: Shared, i: I.InvoiceView, np: P.NewPayment, env: Env,
                        commits: bool, now: Timestamp)
    requires Run(c, steps) == Alone(Goto(s, TransferCancel(i, np)))
    requires I.Consistent(i) && i.events == s.inv && |s.inv| == 1 && s.inv[0].WasCreated?
    requires i.header.preimage == s.inv[0].preimage && i.header.wallet == s.inv[0].wallet
    requires np.hash == s.hash && np.maxFee == 0 && np.at == now
    ensures var d := Run(c, steps + [Advance(0, env)] + Finishing(commits, now));
            var canceled := Canceled(s, env.amt);
            && d.actors == map[]
            && d.s.(nextSeq := s.nextSeq) ==
                 if !env.ok || !Cancelable(s.lndInv) || !commits || s.pay != [] || EncodeBigint(np.amount).None?
                 then canceled
                 else Transferred(canceled, np.wallet, np.amount, now)
  {
    hide Run, I.Consistent, Sats, Finishing, CommitTransfer;
    AdvanceAlone(c, steps, s, TransferCancel(i, np), env);
    var s1, all := Canceled(s, env.amt), steps + [Advance(0, env)];
    if env.ok && Cancelable(s.lndInv) {
      TransferCommits(c, all, s1, i, np, commits, now);
    } else {
      FinishGone(c, all, s1, commits, now);
    }
  }

  lemma TransferCommits(c: Cell, all: seq<Step>, s: Shared, i: I.InvoiceView, np: P.NewPayment, commits: bool,
                        now: Timestamp)
    requires Run(c, all) == Alone(Goto(s, TransferTx(i, np, None)))
    requires I.Consistent(i) && i.events == s.inv && |s.inv| == 1 && s.inv[0].WasCreated?
    requires i.header.preimage == s.inv[0].preimage && i.header.wallet == s.inv[0].wallet
    requires np.hash == s.hash && np.maxFee == 0 && np.at == now
    ensures var d := Run(c, all + Finishing(commits, now));
            && d.actors == map[]
            && d.s.(nextSeq := s.nextSeq) ==
                 if !commits || s.pay != [] || EncodeBigint(np.amount).None? then s
                 else Transferred(s, np.wallet, np.amount, now)
  {
    hide Run, I.Consistent, Sats, I.SettleIntraledger, Move;
    DrawAlone(c, all, s, TransferTx(i, np, None));
    var s2, drawn := s.(nextSeq := s.nextSeq + 1), all + [Draw(0)];
    var tx := TransferTx(i, np, Some(s.nextSeq));
    if commits {
      AdvanceAlone(c, drawn, s2, tx, At(now));
      assert drawn + [Advance(0, At(now))] == all + Finishing(commits, now);
      TransferWrites(s2, i, np, s.nextSeq, now);
    } else {
      DropAlone(c, drawn, Goto(s2, tx));
      assert drawn + [Drop(0)] == all + Finishing(commits, now);
    }
  }

  lemma TransferWrites(s: Shared, i: I.InvoiceView, np: P.NewPayment, ticket: int, now: Timestamp)
    requires I.Consistent(i) && i.events == s.inv && |s.inv| == 1 && s.inv[0].WasCreated?
    requires i.header.preimage == s.inv[0].preimage && i.header.wallet == s.inv[0].wallet
    requires np.hash == s.hash && np.maxFee == 0 && np.at == now
    ensures var r := Move(s, 0, TransferTx(i, np, Some(ticket)), At(now));
            && r.next.None?
            && r.s == if s.pay != [] || EncodeBigint(np.amount).None? then s
                      else Transferred(s.(nextSeq := ticket), np.wallet, np.amount, now).(nextSeq := s.nextSeq)
  {
    hide I.Consistent, Sats, I.SettleIntraledger;
    TransferSettles(i, now);
  }

  /** So a completed transfer is reached: wallet 7 pays the invoice of wallet 8. */
  lemma TransferCompletesRun() returns (steps: seq<Step>)
    ensures var s := Run(Init(5), steps).s;
            && IntraledgerLog(s.pay) && s.pay[0].wallet == 7 && s.pay[0].amount == 1_000
            && |s.inv| == 2 && s.inv[1].WasSettledIntraledger? && s.lndInv.LndCanceled?
            && s.transfers == [Hold(1, Approved)]
            && s.rows == [Row(1, 5, IntraledgerCompleted(1, 7, 8, 1_000))]
  {
    hide Run;
    var first := [AddHoldInvoice] + [CreateInvoice(9, 8, Some(1_000), 100)];
    var s := Init(5).s.(lndInv := LndOpen, inv := [I.WasCreated(5, 9, 8, Some(1_000), 100)]);
    assert Run(Init(5), first) == Cell(s, map[]) by {
      InvoiceStands();
    }
    var pass := TransferPass(7, Some(1_000), "lnbc", Approved, true, 0, true, 0);
    TransferRuns(s, 7, Some(1_000), "lnbc", Approved, true, 0, true, 0);
    RunThen(Init(5), first, pass);
    steps := first + pass;
  }

  lemma InvoiceStands()
    ensures Run(Init(5), [AddHoldInvoice] + [CreateInvoice(9, 8, Some(1_000), 100)]) ==
              Cell(Init(5).s.(lndInv := LndOpen, inv := [I.WasCreated(5, 9, 8, Some(1_000), 100)]), map[])
  {
    var steps := [AddHoldInvoice] + [CreateInvoice(9, 8, Some(1_000), 100)];
    var c1 := Do(Init(5), steps[0]);
    assert steps[1..] == [CreateInvoice(9, 8, Some(1_000), 100)];
    assert Run(c1, steps[1..]) == Run(Do(c1, steps[1]), steps[1..][1..]);
  }

  // ---- After a crash ----

  /** A crash keeps what is stored and what LND holds, and nothing else. */
  lemma CrashKeepsStored(c: Cell, steps: seq<Step>, rest: seq<Step>)
    ensures Run(c, steps + [Crash] + rest) == Run(Cell(Run(c, steps).s, map[]), rest)
  {
    hide Init;
    RunThen(c, steps + [Crash], rest);
    RunThen(c, steps, [Crash]);
    assert Run(Run(c, steps), [Crash]) == Run(Do(Run(c, steps), Crash), []);
  }

  /** Crash recovery, from any run: after a crash one pass of either sweep finishes what LND has finished. */
  lemma CrashThenSweepsRecover(h: Hash, steps: seq<Step>)
    ensures var s := Run(Init(h), steps).s;
            var d := Run(Init(h), steps + [Crash] + OrphanPass()).s;
            LnLog(s.pay) && |s.pay| == 1 && (s.lndPay.Succeeded? || s.lndPay.LndFailed?) ==>
              && |PayRows(d.rows)| == 2
              && (Completed(d.pay) <==> s.lndPay.Succeeded?) && (Failed(d.pay) <==> s.lndPay.LndFailed?)
    ensures var s := Run(Init(h), steps).s;
            var d := Run(Init(h), steps + [Crash] + ReconcilePass(s)).s;
            |s.inv| == 2 && s.inv[1].WasHeld? ==>
              && |d.inv| == 3 && |RecvRows(d.rows)| == 2
              && (d.inv[2].WasSettled? <==> d.lndInv.LndSettled?) && (d.inv[2].WasCanceled? <==> d.lndInv.LndCanceled?)
  {
    hide Run, Init, OrphanPass, ReconcilePass, PayRows, RecvRows, Core, ActorOk;
    var s := Run(Init(h), steps).s;
    CrashKeepsStored(Init(h), steps, OrphanPass());
    CrashKeepsStored(Init(h), steps, ReconcilePass(s));
    HashKept(h, steps);
    assert Reachable(s);
    if LnLog(s.pay) && |s.pay| == 1 && (s.lndPay.Succeeded? || s.lndPay.LndFailed?) {
      OrphanSweepRecovers(s);
    }
    if |s.inv| == 2 && s.inv[1].WasHeld? {
      ReconcileRecovers(s);
    }
  }

  lemma HashKept(h: Hash, steps: seq<Step>)
    ensures Run(Init(h), steps).s.hash == h
  {
    hide Run, Core, ActorOk;
    InitIsInv(h);
    World.HashFixed(Init(h), steps);
  }
}
