/** What the protocol may do to the boards: add one parked card, or nothing at all. */
module KanbanFrame {
  import opened KanbanProtocol
  import opened KanbanInvariant
  import opened KanbanRuns

  /** Every database holds the cards it held, and nothing was recorded as committed. */
  ghost predicate LeavesBoards(w: World, w': World) {
    w'.created == w.created && forall db :: TableOf(w', db) == TableOf(w, db)
  }

  /** The attempt committed one card: a new id in one database, parked as it was asked for, with every
      other card in that database and every other database as before. */
  ghost predicate AddsOneCard(w: World, w': World, a: Attempt) {
    && |w'.created| == |w.created| + 1 && w'.created == w.created + [w'.created[|w.created|]]
    && var c := w'.created[|w.created|]; var table := TableOf(w, c.txn.conn); var after := TableOf(w', c.txn.conn);
       && c.op == a.op && c.attempt == a.no
       && c.task !in table && c.task in after && after == table[c.task := after[c.task]]
       && after[c.task] == ParkedCard(a.op, a.payload)
       && forall db :: db != c.txn.conn ==> TableOf(w', db) == TableOf(w, db)
  }

  /** The commit of a transaction: the staged table is the old one, or the old one and one card. */
  lemma CommitFrame(w: World, a: Attempt, row: Row)
    requires Staged(w, a)
    ensures var w' := Committing(w, a, row); LeavesBoards(w, w') || AddsOneCard(w, w', a)
  {
    var w' := Committing(w, a, row);
    var l := a.locals;
    assert TableOf(w', l.txn.conn) == l.staged;
    assert forall db :: db != l.txn.conn ==> TableOf(w', db) == TableOf(w, db);
    if l.createdNow { VerifiedExactlyWhen(l.staged[l.task], a.op, a.payload); }
    hide VerifiedParked;
    if l.createdNow { assert w'.created[|w.created|] == Creation(a.op, a.no, l.task, row.identity, l.txn); }
  }

  predicate SameTables(w: World, w': World) {
    w'.tables == w.tables && w'.created == w.created
  }

  lemma PrepareFrame(w: World, a: Attempt, o: Oracle)
    ensures SameTables(w, PrepareStep(w, a, o).world)
  {
  }

  lemma WorkFrame(w: World, a: Attempt, row: Row, o: Oracle)
    requires !a.place.CommitBoard?
    ensures SameTables(w, WorkStep(w, a, row, o).world)
  {
    MutateFrame(w, a, o);
    hide MutateBoard, GenerationMatches;
  }

  /** Outside the commit no step touches a table. */
  lemma StepFrame(w: World, a: Attempt, o: Oracle)
    requires !a.place.CommitBoard?
    ensures SameTables(w, Step(w, a, o).world)
  {
    PrepareFrame(w, a, o);
    if a.locals.entry.Some? { WorkFrame(w, a, a.locals.entry.value, o); }
    hide PrepareStep, WorkStep, SameTables;
    assert SameTables(w, w) by { NothingIsSame(w); }
  }

  lemma NothingIsSame(w: World)
    ensures SameTables(w, w)
  {
  }

  lemma MutateFrame(w: World, a: Attempt, o: Oracle)
    ensures MutateBoard(w, a, o).world == w
  {
  }

  lemma CommitStepFrame(w: World, a: Attempt, o: Oracle)
    requires AttemptOk(w, a) && a.place.CommitBoard?
    ensures var w' := Step(w, a, o).world; LeavesBoards(w, w') || AddsOneCard(w, w', a)
  {
    CommitFrame(w, a, a.locals.entry.value);
    hide Made, MadeBy, MadeAs, Committing, AddsOneCard, MutateBoard;
  }

  /** Whatever the protocol does at a moment of a run, crashes and revocations included, either leaves
      every board as it is or adds one parked card of the attempt in the lock and nothing else. */
  lemma {:induction false} BoardsGainOneCardOrNothing(events: seq<Event>, e: Event)
    requires !e.Outside?
    ensures var s := Run(Initial(), events); var s' := Next(s, e);
            LeavesBoards(s.world, s'.world)
            || (e.Advance? && s.attempt.Some? && AddsOneCard(s.world, s'.world, s.attempt.value))
  {
    var s := Run(Initial(), events);
    Reachable(events);
    InvGives(s);
    hide Run, Step, AddsOneCard, Inv, CoreOk, AttemptOk;
    if e.Advance? && s.attempt.Some? {
      var a := s.attempt.value;
      if a.place.CommitBoard? { CommitStepFrame(s.world, a, e.oracle); } else { StepFrame(s.world, a, e.oracle); }
      hide LeavesBoards;
    }
  }

  lemma TransactionFails(w: World, a: Attempt, row: Row, o: Oracle)
    requires InTransaction(a.place) && WorkStep(w, a, row, o).Leave?
    ensures WorkStep(w, a, row, o).world == w || (a.place.CommitBoard? && o.outcome.Lost?)
    ensures WorkStep(w, a, row, o).answer == UNKNOWN_OUTCOME
  {
    MutateFrame(w, a, o);
    MutateFails(w, a, o);
    hide MutateBoard, Committing, GenerationMatches;
  }

  /** An attempt that fails inside its board transaction, at whatever place of whatever run, leaves
      every store as it is, unless the commit went through and only its report was lost; either way
      it says that the outcome is unknown.  A crash there changes nothing either. */
  lemma {:induction false} FailureChangesNothing(events: seq<Event>, o: Oracle)
    requires var s := Run(Initial(), events); s.attempt.Some? && InTransaction(s.attempt.value.place)
    ensures var s := Run(Initial(), events); var a := s.attempt.value; var s' := Next(s, Advance(o));
            && Next(s, Crash).world == s.world
            && (s'.attempt.None? ==>
                  && (s'.world == s.world || (a.place.CommitBoard? && o.outcome.Lost?))
                  && s'.replies == s.replies + [Reply(a.op, a.no, UNKNOWN_OUTCOME, |s'.world.created|)])
  {
    var s := Run(Initial(), events);
    Reachable(events);
    InvGives(s);
    hide Run, Inv, CoreOk, WorkStep;
    var a := s.attempt.value;
    assert a.locals.entry.Some?;
    hide AttemptOk;
    if Step(s.world, a, o).Leave? { TransactionFails(s.world, a, a.locals.entry.value, o); }
  }

  lemma MutateFails(w: World, a: Attempt, o: Oracle)
    ensures MutateBoard(w, a, o).Leave? ==> MutateBoard(w, a, o).answer == UNKNOWN_OUTCOME
  {
  }
}
