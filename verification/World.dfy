/** The whole gateway: every payment hash at once, one outbox table, one BIGSERIAL, and a crash
    that takes all of them. Each hash sees a run of the step system in which the other hashes only
    draw sequence numbers, so every theorem about one hash holds for all hashes of the gateway. */
module World {
  import opened Primitives
  import opened Amounts
  import P = Payments
  import I = Invoices
  import opened Outbox
  import opened Protocol
  import opened Invariant
  import opened Steps
  import opened Theorems

  datatype World = World(cells: map<Hash, Cell>, nextSeq: int, outbox: seq<Row>)

  datatype WorldStep = Local(hash: Hash, step: Step) | ProcessCrash

  const START := World(map[], 1, [])

  function CellOf(w: World, h: Hash): Cell {
    if h in w.cells then w.cells[h] else Init(h)
  }

  /** The hash's cell with the shared sequence counter. */
  function Synced(w: World, h: Hash): Cell {
    var c := CellOf(w, h);
    c.(s := c.s.(nextSeq := w.nextSeq))
  }

  function NewRows(before: seq<Row>, after: seq<Row>): seq<Row> {
    if |before| <= |after| then after[|before|..] else []
  }

  function Act(w: World, ws: WorldStep): World {
    match ws
    case Local(h, step) =>
      var c := Synced(w, h);
      var d := Do(c, step);
      World(w.cells[h := d], d.s.nextSeq, w.outbox + NewRows(c.s.rows, d.s.rows))
    case ProcessCrash =>
      w.(cells := map h | h in w.cells :: Do(w.cells[h], Crash))
  }

  function Play(w: World, steps: seq<WorldStep>): World
    decreases |steps|
  {
    if steps == [] then w else Play(Act(w, steps[0]), steps[1..])
  }

  ghost predicate IsRun(c: Cell, h: Hash) {
    exists steps :: c == Run(Init(h), steps)
  }

  ghost predicate WorldOk(w: World) {
    forall h :: && IsRun(CellOf(w, h), h)
                && CellOf(w, h).s.nextSeq <= w.nextSeq
                && OfHash(w.outbox, h) == CellOf(w, h).s.rows
  }

  lemma RunExtends(c: Cell, h: Hash, step: Step)
    requires IsRun(c, h)
    ensures IsRun(Do(c, step), h)
  {
    var steps :| c == Run(Init(h), steps);
    RunThen(Init(h), steps, [step]);
    assert Run(c, [step]) == Run(Do(c, step), []);
  }

  lemma RunIsInv(c: Cell, h: Hash)
    requires IsRun(c, h)
    ensures Inv(c) && c.s.hash == h
  {
    var steps :| c == Run(Init(h), steps);
    InitIsInv(h);
    RunKeepsInv(Init(h), steps);
    HashFixed(Init(h), steps);
  }

  /** A step only grows the rows and the counter, and keeps the hash. */
  lemma StepGrows(c: Cell, step: Step)
    requires Inv(c)
    ensures var d := Do(c, step);
            d.s.hash == c.s.hash && c.s.nextSeq <= d.s.nextSeq && c.s.rows <= d.s.rows
  {
    hide Core, ActorOk, Move, DrawTicket;
    match step
    case Advance(id, env) => if id in c.actors { AdvanceStep(c.s, id, c.actors[id], env); }
    case Draw(id) => if id in c.actors { DrawStep(c.s, id, c.actors[id]); }
    case _ => SurroundingsStep(c.s, step);
  }

  lemma {:induction false} HashFixed(c: Cell, steps: seq<Step>)
    requires Inv(c)
    ensures Run(c, steps).s.hash == c.s.hash
    decreases |steps|
  {
    hide Inv;
    if steps != [] {
      StepGrows(c, steps[0]);
      StepKeepsInv(c, steps[0]);
      HashFixed(Do(c, steps[0]), steps[1..]);
    }
  }

  lemma LocalKeepsWorld(w: World, h: Hash, step: Step)
    requires WorldOk(w)
    ensures WorldOk(Act(w, Local(h, step)))
  {
    hide Inv, Do, Init, Run;
    var base := CellOf(w, h);
    var c := Synced(w, h);
    SyncIsDraw(w, h);
    RunExtends(base, h, OtherDraws(w.nextSeq - base.s.nextSeq));
    RunIsInv(c, h);
    var d := Do(c, step);
    StepGrows(c, step);
    RunExtends(c, h, step);
    RunIsInv(d, h);
    RowsOfInv(d);
    var added := NewRows(c.s.rows, d.s.rows);
    assert c.s.rows + added == d.s.rows;
    var w' := Act(w, Local(h, step));
    forall k
      ensures IsRun(CellOf(w', k), k) && CellOf(w', k).s.nextSeq <= w'.nextSeq
      ensures OfHash(w'.outbox, k) == CellOf(w', k).s.rows
    {
      OfHashAppend(w.outbox, added, k, h);
      if k == h {
        assert CellOf(w', k) == d;
      } else {
        assert CellOf(w', k) == CellOf(w, k);
      }
    }
  }

  lemma SyncIsDraw(w: World, h: Hash)
    requires CellOf(w, h).s.nextSeq <= w.nextSeq
    ensures Do(CellOf(w, h), OtherDraws(w.nextSeq - CellOf(w, h).s.nextSeq)) == Synced(w, h)
  {
  }

  lemma RowsOfInv(c: Cell)
    requires Inv(c)
    ensures forall k :: 0 <= k < |c.s.rows| ==> c.s.rows[k].hash == c.s.hash
  {
  }

  lemma CrashKeepsWorld(w: World)
    requires WorldOk(w)
    ensures WorldOk(Act(w, ProcessCrash))
  {
    hide Run, Init;
    var w' := Act(w, ProcessCrash);
    forall k
      ensures IsRun(CellOf(w', k), k) && CellOf(w', k).s.nextSeq <= w'.nextSeq
      ensures OfHash(w'.outbox, k) == CellOf(w', k).s.rows
    {
      if k in w.cells {
        assert CellOf(w', k) == Do(CellOf(w, k), Crash);
        RunExtends(CellOf(w, k), k, Crash);
      } else {
        assert CellOf(w', k) == CellOf(w, k);
      }
    }
  }

  /** After a crash of the process no actor of any hash is left, and everything stored, published or held
      at LND is as it was. */
  lemma ProcessCrashKeepsStored(w: World, h: Hash)
    ensures var w' := Act(w, ProcessCrash);
            && CellOf(w', h).actors == map[] && CellOf(w', h).s == CellOf(w, h).s
            && w'.outbox == w.outbox && w'.nextSeq == w.nextSeq
  {
  }

  lemma {:induction false} PlayKeepsWorld(w: World, steps: seq<WorldStep>)
    requires WorldOk(w)
    ensures WorldOk(Play(w, steps))
    decreases |steps|
  {
    hide WorldOk;
    if steps != [] {
      match steps[0]
      case Local(h, step) => LocalKeepsWorld(w, h, step);
      case ProcessCrash => CrashKeepsWorld(w);
    }
    if steps != [] {
      PlayKeepsWorld(Act(w, steps[0]), steps[1..]);
    }
  }

  lemma StartIsOk()
    ensures WorldOk(START)
  {
    forall h
      ensures IsRun(CellOf(START, h), h) && OfHash(START.outbox, h) == CellOf(START, h).s.rows
    {
      assert Run(Init(h), []) == Init(h);
    }
  }

  /** In every run of the whole gateway, the part of any hash is reachable in the per-hash system,
      and its rows are exactly what the shared outbox holds for it. */
  lemma EveryHashIsReachable(steps: seq<WorldStep>, h: Hash)
    ensures var w := Play(START, steps);
            && Reachable(CellOf(w, h).s) && CellOf(w, h).s.hash == h
            && OfHash(w.outbox, h) == CellOf(w, h).s.rows
  {
    StartIsOk();
    PlayKeepsWorld(START, steps);
    var c := CellOf(Play(START, steps), h);
    RunIsInv(c, h);
    var local :| c == Run(Init(h), local);
    assert Run(Init(c.s.hash), local).s == c.s;
  }

  // ---- Commit order is not sequence order ----

  lemma {:induction false} PlayThen(w: World, first: seq<WorldStep>, second: seq<WorldStep>)
    ensures Play(w, first + second) == Play(Play(w, first), second)
    decreases |first|
  {
    if first == [] {
      assert first + second == second;
    } else {
      assert (first + second)[1..] == first[1..] + second;
      PlayThen(Act(w, first[0]), first[1..], second);
    }
  }

  lemma PlayOne(w: World, ws: WorldStep)
    ensures Play(w, [ws]) == Act(w, ws)
  {
    assert Play(Act(w, ws), []) == Act(w, ws);
  }

  const INVOICE := SendRequest(0, 7, Some(1_000), "lnbc")

  function Intent(h: Hash): P.NewPayment {
    P.NewPayment(h, 7, 1_000, MaxFor(1_000), 0)
  }

  function DrawnCell(h: Hash, ticket: int): Cell {
    Cell(Init(h).s.(nextSeq := ticket + 1), map[0 := Creating(Intent(h), Some(ticket))])
  }

  /** A request for a new hash, up to its open transaction. */
  function ToOpenTx(h: Hash): seq<WorldStep> {
    [Local(h, INVOICE)] + [Local(h, Advance(0, CALM))] + [Local(h, Draw(0))]
  }

  lemma ActWithoutRow(w: World, h: Hash, step: Step, d: Cell)
    requires Do(Synced(w, h), step) == d && d.s.rows == Synced(w, h).s.rows
    ensures Act(w, Local(h, step)) == World(w.cells[h := d], d.s.nextSeq, w.outbox)
  {
    hide Do, Synced;
    assert w.outbox + [] == w.outbox;
  }

  function AskedCell(h: Hash, n: int, a: Actor): Cell {
    Cell(Init(h).s.(nextSeq := n), map[0 := a])
  }

  lemma AskedSteps(h: Hash, n: int)
    ensures var asked := Request(7, P.Decode(h, Some(1_000), "lnbc"));
            && Do(Cell(Init(h).s.(nextSeq := n), map[]), INVOICE) == AskedCell(h, n, asked)
            && Do(AskedCell(h, n, asked), Advance(0, CALM)) == AskedCell(h, n, Creating(Intent(h), None))
            && Do(AskedCell(h, n, Creating(Intent(h), None)), Draw(0)) == DrawnCell(h, n)
  {
    hide I.Hydrate, P.Hydrate, P.TryNewIntraledger, Create, Authorize, HearLnd, CommitPay, HandlePayUpdate,
      LookupOrphan, CommitTransfer, HandleInvUpdate, CommitInv, LookupHeld, SettleAtLnd, Surroundings;
    var asked := Request(7, P.Decode(h, Some(1_000), "lnbc"));
    assert Move(Init(h).s.(nextSeq := n), 0, asked, CALM).next == Some(Creating(Intent(h), None));
    assert Do(AskedCell(h, n, asked), Advance(0, CALM)).actors == map[0 := Creating(Intent(h), None)];
    assert Do(AskedCell(h, n, Creating(Intent(h), None)), Draw(0)).actors == DrawnCell(h, n).actors;
  }

  lemma PlayThree(w: World, a: WorldStep, b: WorldStep, c: WorldStep)
    ensures Play(w, [a] + [b] + [c]) == Act(Act(Act(w, a), b), c)
  {
    hide Act, Play;
    PlayOne(w, a);
    PlayThen(w, [a], [b]);
    PlayOne(Act(w, a), b);
    PlayThen(w, [a] + [b], [c]);
    PlayOne(Act(Act(w, a), b), c);
  }

  lemma OpensTx(w: World, h: Hash)
    requires h !in w.cells
    ensures Play(w, ToOpenTx(h)) == World(w.cells[h := DrawnCell(h, w.nextSeq)], w.nextSeq + 1, w.outbox)
  {
    hide Play, Act, Do;
    var n := w.nextSeq;
    var c1 := AskedCell(h, n, Request(7, P.Decode(h, Some(1_000), "lnbc")));
    var c2 := AskedCell(h, n, Creating(Intent(h), None));
    var w1 := World(w.cells[h := c1], n, w.outbox);
    var w2 := World(w.cells[h := c2], n, w.outbox);
    AskedSteps(h, n);
    ActWithoutRow(w, h, INVOICE, c1);
    ActWithoutRow(w1, h, Advance(0, CALM), c2);
    assert w1.cells[h := c2] == w2.cells;
    ActWithoutRow(w2, h, Draw(0), DrawnCell(h, n));
    assert w2.cells[h := DrawnCell(h, n)] == w.cells[h := DrawnCell(h, n)];
    PlayThree(w, Local(h, INVOICE), Local(h, Advance(0, CALM)), Local(h, Draw(0)));
  }

  lemma CommitsTicket(w: World, h: Hash, ticket: int)
    requires h in w.cells && w.cells[h] == DrawnCell(h, ticket)
    ensures var w' := Act(w, Local(h, Advance(0, CALM)));
            && |w'.outbox| == |w.outbox| + 1 && w.outbox <= w'.outbox && w'.outbox[|w.outbox|].sequence == ticket
            && forall k :: k != h && k in w.cells ==> k in w'.cells && w'.cells[k] == w.cells[k]
  {
    P.StateOfGrammar(P.IntoEvents(Intent(h)));
    var c := Synced(w, h);
    var d := Create(c.s, 0, Creating(Intent(h), Some(ticket)));
    assert Do(c, Advance(0, CALM)).s == d.s;
    assert |d.s.rows| == 1;
  }

  /** A sequence number is drawn before its transaction commits, so two hashes can commit in the
      other order: that a reader sees a prefix of the table is not something the code provides. */
  lemma CommitsOvertake() returns (steps: seq<WorldStep>)
    ensures var outbox := Play(START, steps).outbox;
            |outbox| == 2 && outbox[0].sequence > outbox[1].sequence
  {
    hide Play, Act, DrawnCell;
    OpensTx(START, 1);
    var w1 := Play(START, ToOpenTx(1));
    PlayThen(START, ToOpenTx(1), ToOpenTx(2));
    OpensTx(w1, 2);
    var w2 := Play(w1, ToOpenTx(2));
    steps := ToOpenTx(1) + ToOpenTx(2);
    var late, early := Local(1, Advance(0, CALM)), Local(2, Advance(0, CALM));
    CommitsTicket(w2, 2, 2);
    PlayOne(w2, early);
    PlayThen(START, steps, [early]);
    var w3 := Act(w2, early);
    CommitsTicket(w3, 1, 1);
    PlayOne(w3, late);
    PlayThen(START, steps + [early], [late]);
    steps := steps + [early] + [late];
  }
}
