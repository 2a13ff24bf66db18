/** Outbox sequences are distinct over the whole gateway: one counter hands them out, an open
    transaction keeps its number to itself, and a commit uses it up. So the committed rows of any
    run form one sorted table. */
module Tickets {
  import opened Primitives
  import opened Amounts
  import opened Outbox
  import opened Commits
  import opened Protocol
  import opened World
  import P = Payments
  import I = Invoices

  /** The sequence number an open transaction has drawn. */
  function TicketOf(a: Actor): Option<int> {
    if a.Creating? || a.PayTx? || a.TransferTx? || a.InvTx? then a.ticket else None
  }

  function TicketAt(actors: map<nat, Actor>, id: nat): Option<int> {
    if id in actors then TicketOf(actors[id]) else None
  }

  // ---- One step of one hash ----

  /** An await either publishes nothing and draws nothing, or publishes one row under the actor's own
      number, which it then no longer has. */
  predicate UsesTicket(s: Shared, a: Actor, r: After) {
    || (r.s.rows == s.rows && (r.next.Some? ==> TicketOf(r.next.value) in {None, TicketOf(a)}))
    || (&& TicketOf(a).Some? && (r.next.Some? ==> TicketOf(r.next.value).None?)
        && |r.s.rows| == |s.rows| + 1 && s.rows <= r.s.rows
        && r.s.rows[|s.rows|].sequence == TicketOf(a).value)
  }

  lemma SendUsesTicket(s: Shared, id: nat, a: Actor, env: Env)
    requires a.Request? || a.Creating? || a.Created? || a.Holding? || a.Sending?
    ensures UsesTicket(s, a, Move(s, id, a, env)) && Move(s, id, a, env).s.nextSeq == s.nextSeq
  {
    hide P.Hydrate, I.Hydrate, P.TryNew, P.TryNewIntraledger, MaxFor, HoldSat, Sats, EncodeBigint, CommitPending,
      SettleInline, FailInline;
  }

  lemma PaymentUsesTicket(s: Shared, id: nat, a: Actor, env: Env)
    requires a.PayTx? || a.PayUpdate? || a.OrphanLoad? || a.OrphanLookup?
    ensures UsesTicket(s, a, Move(s, id, a, env)) && Move(s, id, a, env).s.nextSeq == s.nextSeq
  {
    hide P.Hydrate, CommitCompleted, CommitFailed;
  }

  lemma TransferUsesTicket(s: Shared, id: nat, a: Actor, env: Env)
    requires a.TransferAuthorize? || a.TransferCancel? || a.TransferTx?
    ensures UsesTicket(s, a, Move(s, id, a, env)) && Move(s, id, a, env).s.nextSeq == s.nextSeq
  {
    hide I.SettleIntraledger, EncodeBigint, Sats, WholeSat;
  }

  lemma InvoiceUsesTicket(s: Shared, id: nat, a: Actor, env: Env)
    requires a.InvUpdate? || a.InvTx? || a.HoldLoad? || a.HoldLookup? || a.HoldSettle?
    ensures UsesTicket(s, a, Move(s, id, a, env)) && Move(s, id, a, env).s.nextSeq == s.nextSeq
  {
    hide I.Hydrate, I.MarkHeld, CommitHeld, CommitSettle, CommitCancel;
  }

  lemma MoveUsesTicket(s: Shared, id: nat, a: Actor, env: Env)
    ensures UsesTicket(s, a, Move(s, id, a, env)) && Move(s, id, a, env).s.nextSeq == s.nextSeq
  {
    hide Move, UsesTicket;
    if a.Request? || a.Creating? || a.Created? || a.Holding? || a.Sending? {
      SendUsesTicket(s, id, a, env);
    } else if a.PayTx? || a.PayUpdate? || a.OrphanLoad? || a.OrphanLookup? {
      PaymentUsesTicket(s, id, a, env);
    } else if a.TransferAuthorize? || a.TransferCancel? || a.TransferTx? {
      TransferUsesTicket(s, id, a, env);
    } else {
      InvoiceUsesTicket(s, id, a, env);
    }
  }

  /** What a step of one hash does to numbers and rows. */
  datatype Form = Quiet | Drew(id: nat) | Published(id: nat)

  /** Actors other than the mover keep their numbers or go. */
  ghost predicate OthersKeep(c: Cell, d: Cell, except: set<nat>) {
    forall id :: id !in except && TicketAt(d.actors, id).Some? ==> TicketAt(d.actors, id) == TicketAt(c.actors, id)
  }

  ghost predicate HasForm(c: Cell, d: Cell, form: Form) {
    match form
    case Quiet => d.s.rows == c.s.rows && OthersKeep(c, d, {}) && c.s.nextSeq <= d.s.nextSeq
    case Drew(id) =>
      && d.s.rows == c.s.rows && OthersKeep(c, d, {id})
      && TicketAt(d.actors, id) == Some(c.s.nextSeq) && d.s.nextSeq == c.s.nextSeq + 1
    case Published(id) =>
      && OthersKeep(c, d, {id}) && d.s.nextSeq == c.s.nextSeq
      && TicketAt(c.actors, id).Some? && TicketAt(d.actors, id).None?
      && |d.s.rows| == |c.s.rows| + 1 && c.s.rows <= d.s.rows
      && d.s.rows[|c.s.rows|].sequence == TicketAt(c.actors, id).value
  }

  lemma AdvanceForm(c: Cell, id: nat, env: Env) returns (form: Form)
    ensures HasForm(c, Do(c, Advance(id, env)), form)
  {
    hide Move;
    form := Quiet;
    if id in c.actors {
      MoveUsesTicket(c.s, id, c.actors[id], env);
      form := if Move(c.s, id, c.actors[id], env).s.rows == c.s.rows then Quiet else Published(id);
    }
  }

  lemma StepForm(c: Cell, step: Step) returns (form: Form)
    ensures HasForm(c, Do(c, step), form)
  {
    hide Move;
    form := Quiet;
    if step.Advance? {
      form := AdvanceForm(c, step.id, step.env);
    } else if step.Draw? && step.id in c.actors && DrawTicket(c.s, c.actors[step.id]).s != c.s {
      form := Drew(step.id);
    }
  }

  // ---- The whole gateway ----

  function TicketIn(w: World, h: Hash, id: nat): Option<int> {
    TicketAt(CellOf(w, h).actors, id)
  }

  predicate Unused(rows: seq<Row>, q: int) {
    forall i :: 0 <= i < |rows| ==> rows[i].sequence != q
  }

  predicate DistinctSequences(rows: seq<Row>) {
    forall i, j :: 0 <= i < j < |rows| ==> rows[i].sequence != rows[j].sequence
  }

  /** No number is held twice, used twice, held and used, or still to come. */
  ghost predicate TicketsOk(w: World) {
    && DistinctSequences(w.outbox) && AllBelow(w.outbox, w.nextSeq)
    && (forall h, id :: TicketIn(w, h, id).Some? ==>
          TicketIn(w, h, id).value < w.nextSeq && Unused(w.outbox, TicketIn(w, h, id).value))
    && (forall h, id, k, j :: TicketIn(w, h, id).Some? && TicketIn(w, h, id) == TicketIn(w, k, j) ==> h == k && id == j)
  }

  /** What a local step shows of itself in the gateway. */
  ghost predicate WorldForm(w: World, w': World, h: Hash, form: Form) {
    match form
    case Quiet =>
      && w'.outbox == w.outbox && w.nextSeq <= w'.nextSeq
      && forall k, j :: TicketIn(w', k, j).Some? ==> TicketIn(w', k, j) == TicketIn(w, k, j)
    case Drew(id) =>
      && w'.outbox == w.outbox && w'.nextSeq == w.nextSeq + 1 && TicketIn(w', h, id) == Some(w.nextSeq)
      && forall k, j :: (k != h || j != id) && TicketIn(w', k, j).Some? ==> TicketIn(w', k, j) == TicketIn(w, k, j)
    case Published(id) =>
      && w'.nextSeq == w.nextSeq && TicketIn(w, h, id).Some? && TicketIn(w', h, id).None?
      && |w'.outbox| == |w.outbox| + 1 && w.outbox <= w'.outbox
      && w'.outbox[|w.outbox|].sequence == TicketIn(w, h, id).value
      && forall k, j :: TicketIn(w', k, j).Some? ==> TicketIn(w', k, j) == TicketIn(w, k, j)
  }

  lemma LocalForm(w: World, h: Hash, step: Step) returns (form: Form)
    ensures WorldForm(w, Act(w, Local(h, step)), h, form)
  {
    hide Do;
    var c := Synced(w, h);
    var d := Do(c, step);
    form := StepForm(c, step);
    var w' := Act(w, Local(h, step));
    assert CellOf(w', h) == d;
    if form.Published? {
      assert w'.outbox == w.outbox + [d.s.rows[|c.s.rows|]];
    }
    var mover := if form.Drew? then {form.id} else {};
    forall k, j | (k != h || j !in mover) && TicketIn(w', k, j).Some?
      ensures TicketIn(w', k, j) == TicketIn(w, k, j)
    {
      if k == h {
        assert TicketAt(d.actors, j) == TicketAt(c.actors, j);
      } else {
        assert CellOf(w', k) == CellOf(w, k);
      }
    }
  }

  lemma FormKeepsTickets(w: World, w': World, h: Hash, form: Form)
    requires TicketsOk(w) && WorldForm(w, w', h, form)
    ensures TicketsOk(w')
  {
    hide TicketIn;
  }

  lemma CrashKeepsTickets(w: World)
    requires TicketsOk(w)
    ensures TicketsOk(Act(w, ProcessCrash))
  {
    var w' := Act(w, ProcessCrash);
    assert forall h, id :: TicketIn(w', h, id).None?;
  }

  lemma {:induction false} PlayKeepsTickets(w: World, steps: seq<WorldStep>)
    requires TicketsOk(w)
    ensures TicketsOk(Play(w, steps))
    decreases |steps|
  {
    hide TicketsOk, Act;
    if steps != [] {
      var w' := Act(w, steps[0]);
      if steps[0].ProcessCrash? {
        CrashKeepsTickets(w);
      } else {
        var form := LocalForm(w, steps[0].hash, steps[0].step);
        FormKeepsTickets(w, w', steps[0].hash, form);
      }
      PlayKeepsTickets(w', steps[1..]);
    }
  }

  /** In every run the committed rows of all hashes have distinct sequences, none of which is still
      held by an open transaction. */
  lemma OutboxSequencesDistinct(steps: seq<WorldStep>)
    ensures DistinctSequences(Play(START, steps).outbox)
    ensures forall h, id :: TicketIn(Play(START, steps), h, id).Some? ==>
              Unused(Play(START, steps).outbox, TicketIn(Play(START, steps), h, id).value)
  {
    PlayKeepsTickets(START, steps);
  }

  // ---- The table ----

  /** `ORDER BY sequence`. */
  function Insert(t: seq<Row>, r: Row): seq<Row> {
    if t == [] || t[|t| - 1].sequence < r.sequence then t + [r]
    else Insert(t[..|t| - 1], r) + [t[|t| - 1]]
  }

  function Sorted(rows: seq<Row>): seq<Row> {
    if rows == [] then [] else Insert(Sorted(rows[..|rows| - 1]), rows[|rows| - 1])
  }

  lemma {:induction false} InsertSorts(t: seq<Row>, r: Row)
    requires Ascending(t) && Unused(t, r.sequence)
    ensures Ascending(Insert(t, r)) && forall x :: x in Insert(t, r) <==> x in t || x == r
    decreases |t|
  {
    if t != [] && t[|t| - 1].sequence >= r.sequence {
      var front, last := t[..|t| - 1], t[|t| - 1];
      assert t == front + [last];
      InsertSorts(front, r);
      var put := Insert(front, r);
      forall i | 0 <= i < |put|
        ensures put[i].sequence < last.sequence
      {
        assert put[i] in put;
      }
    }
  }

  lemma {:induction false} SortedIsTable(rows: seq<Row>)
    requires DistinctSequences(rows)
    ensures Ascending(Sorted(rows)) && SameRows(Sorted(rows), rows)
  {
    if rows != [] {
      var front, last := rows[..|rows| - 1], rows[|rows| - 1];
      SortedIsTable(front);
      var t := Sorted(front);
      forall i | 0 <= i < |t|
        ensures t[i].sequence != last.sequence
      {
        assert t[i] in front;
      }
      InsertSorts(t, last);
      LastAndFront(rows);
    }
  }

  /** What a query over everything returns at the end of a run. */
  function TableOf(w: World): seq<Row> {
    Sorted(w.outbox)
  }

  /** Every run has its sorted table: exactly the committed rows, each once. */
  lemma RunHasTable(steps: seq<WorldStep>)
    ensures Ascending(TableOf(Play(START, steps))) && SameRows(TableOf(Play(START, steps)), Play(START, steps).outbox)
  {
    hide Play;
    OutboxSequencesDistinct(steps);
    SortedIsTable(Play(START, steps).outbox);
  }
}
