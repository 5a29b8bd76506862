/** What the ledger is for: a retry that nobody disturbs finishes what an earlier attempt left behind. */
module KanbanRecovery {
  import opened Options
  import opened KanbanProtocol
  import opened KanbanInvariant
  import opened KanbanProgress
  import opened KanbanFrame

  /** The ledger has an unfinished row for these very arguments and its board is still current. */
  predicate Resumable(w: World, op: OpId, payload: Payload, row: Row, o: Oracle) {
    && op in w.ledger && w.ledger[op] == row && row.payload == payload && !row.state.Committed?
    && GenerationMatches(w, row.identity, o)
  }

  /** The retry that has read its row. */
  function Resumed(a: Attempt, row: Row): Attempt {
    a.(place := CheckCurrent, locals := a.locals.(entry := Some(row)))
  }

  lemma AloneToRow(w: World, a: Attempt, o: Oracle, row: Row, n: nat)
    requires n >= 2 && a == Fresh(a.no, a.op, a.payload) && Resumable(w, a.op, a.payload, row, o)
    ensures Alone(w, a, o, n) == Alone(w, Resumed(a, row), o, n - 2)
  {
    hide MutateBoard, WorkStep, Alone, GenerationMatches;
    assert o.outcome.Ok? by { MatchedIsOk(w, row.identity, o); }
    var a1 := a.(place := LedgerRead, locals := a.locals.(entry := Some(row)));
    OneStep(w, a, o, n, w, a1);
    OneStep(w, a1, o, n - 1, w, Resumed(a, row));
  }

  // ---------------------------------------------------------------- a MUTATING row

  /** The pinned database holds exactly one card of the operation, `task`, and it is as it was asked for. */
  predicate HoldsCard(w: World, row: Row, op: OpId, task: TaskId) {
    var table := TableOf(w, row.identity.db);
    && task in table && table[task] == ParkedCard(op, row.payload)
    && forall t :: t in table && table[t].key == Some(op) ==> t == task
  }

  /** The retry of a MUTATING row may look for the card but not make one. */
  lemma AloneToReopen(w: World, a: Attempt, o: Oracle, row: Row, n: nat)
    requires n >= 3 && a.place.CheckCurrent? && OnTrack(w, a, row, o) && row.state.Mutating?
    ensures Alone(w, a, o, n) == Alone(w, OpenedOn(a.(locals := a.locals.(mayCreate := false)), row.identity.db), o, n - 3)
  {
    hide MutateBoard, PrepareStep, Alone;
    MatchedIsOk(w, row.identity, o);
    var a1 := a.(place := CheckAuthority);
    OneStep(w, a, o, n, w, a1);
    var a2 := a.(place := Open, locals := a.locals.(mayCreate := false));
    OneStep(w, a1, o, n - 1, w, a2);
    OpensWhatIsThere(w, a2, o, row);
    OneStep(w, a2, o, n - 2, w, OpenedOn(a2, row.identity.db));
  }

  /** The attempt that found the card and is about to commit the table as it was. */
  function Finder(w: World, a: Attempt, task: TaskId): Attempt {
    a.(place := CommitBoard,
       locals := a.locals.(task := task, createdNow := false, txn := a.locals.txn.(authorityPasses := 2),
                           staged := TableOf(w, a.locals.txn.conn)))
  }

  lemma MutateFinds(w: World, a: Attempt, o: Oracle, row: Row, task: TaskId)
    requires o.outcome.Ok? && a.locals.txn.conn == row.identity.db && a.payload == row.payload
    requires HoldsCard(w, row, a.op, task)
    ensures var b := Finder(w, a, task);
            MutateBoard(w, a, o) == Go(w, SecondAuthority, b.locals.(txn := a.locals.txn))
  {
    VerifiedExactlyWhen(TableOf(w, row.identity.db)[task], a.op, a.payload);
    hide VerifiedParked;
    assert Keyed(TableOf(w, row.identity.db), a.op) == {task};
    assert Pick(Keyed(TableOf(w, row.identity.db), a.op)) == task;
  }

  lemma AloneToFound(w: World, a: Attempt, o: Oracle, row: Row, task: TaskId, n: nat)
    requires n >= 3 && a.place.Mutate? && OnTrack(w, a, row, o) && a.payload == row.payload
    requires a.locals.txn.authorityPasses == 1 && a.locals.txn.conn == row.identity.db && HoldsCard(w, row, a.op, task)
    ensures var b := Finder(w, a, task);
            Alone(w, a, o, n) == Alone(Committing(w, b, row), b.(place := CheckPost), o, n - 3)
  {
    MatchedIsOk(w, row.identity, o);
    MutateFinds(w, a, o, row, task);
    StepMutates(w, a, o);
    hide Step, Alone, MutateBoard, HoldsCard, GenerationMatches, TableOf, Committing;
    var b := Finder(w, a, task);
    OneStep(w, a, o, n, w, BeforeSecond(b));
    AloneCommits(w, b, o, row, n - 1);
  }

  /** From the row to the receipt: the card is found, verified and recorded. */
  lemma ResumedAttemptAlone(w: World, a: Attempt, o: Oracle, row: Row, task: TaskId)
    requires a.place.CheckCurrent? && OnTrack(w, a, row, o) && row.state.Mutating? && a.payload == row.payload
    requires HoldsCard(w, row, a.op, task)
    ensures var m := Alone(w, a, o, 13);
            && m.Leave? && m.answer == Success(false, task, row.identity.slug) && LeavesBoards(w, m.world)
            && m.world.ledger == w.ledger[a.op := row.(state := Committed, task := Some(task))]
  {
    hide Step, Alone, HoldsCard;
    AloneToReopen(w, a, o, row, 13);
    var a1 := OpenedOn(a.(locals := a.locals.(mayCreate := false)), row.identity.db);
    AloneToMutate(w, a1, o, row, 10);
    var a2 := Mutator(a1, row);
    AloneToFound(w, a2, o, row, task, 6);
    var b := Finder(w, a2, task);
    AloneToReceipt(Committing(w, b, row), b.(place := CheckPost), o, row);
    assert forall db :: TableOf(Committing(w, b, row), db) == TableOf(w, db);
  }

  /** After an unknown outcome with the card in the pinned database, an undisturbed retry makes no
      card, commits the row with the card it found and answers with it, without an acknowledgement. */
  lemma {:induction false} RetryRecovers(s: State, op: OpId, row: Row, task: TaskId, o: Oracle)
    requires s.attempt.None? && Resumable(s.world, op, row.payload, row, o) && row.state.Mutating?
    requires HoldsCard(s.world, row, op, task)
    ensures var s' := Run(s, OneAttempt(s, op, row.payload, o, 15));
            && s'.attempt.None? && LeavesBoards(s.world, s'.world)
            && s'.world.ledger == s.world.ledger[op := row.(state := Committed, task := Some(task))]
            && s'.replies == s.replies
                             + [Reply(op, s.nextAttempt, Success(false, task, row.identity.slug), |s.world.created|)]
  {
    hide Step, Run, Alone, OneAttempt, HoldsCard;
    OneAttemptIsAlone(s, op, row.payload, o, 15);
    var a := Fresh(s.nextAttempt, op, row.payload);
    AloneToRow(s.world, a, o, row, 15);
    ResumedAttemptAlone(s.world, Resumed(a, row), o, row, task);
  }

  // ---------------------------------------------------------------- a PREPARED row

  /** A retry of an attempt that stopped before it could touch the board makes the card itself and
      acknowledges it. */
  lemma {:induction false} RetryCompletesPrepared(s: State, op: OpId, row: Row, o: Oracle)
    requires s.attempt.None? && Resumable(s.world, op, row.payload, row, o) && row.state.Prepared?
    requires Stageable(s.world, row.identity.db, op, row.payload, o)
    ensures Acknowledged(s, Run(s, OneAttempt(s, op, row.payload, o, 16)), op, row.payload, row.identity, o)
  {
    hide Step, Run, Alone, OneAttempt, Stageable;
    var w := s.world;
    OneAttemptIsAlone(s, op, row.payload, o, 16);
    var a := Fresh(s.nextAttempt, op, row.payload);
    AloneToRow(w, a, o, row, 16);
    var a1 := Resumed(a, row);
    AloneToOpen(w, a1, o, row, 14);
    MatchedIsOk(w, row.identity, o);
    var mutating := row.(state := Mutating);
    var w2 := WithRow(w, op, mutating);
    OpensWhatIsThere(w2, Opening(a1, row), o, mutating);
    var a2 := OpenedOn(Opening(a1, row), row.identity.db);
    OneStep(w2, Opening(a1, row), o, 11, w2, a2);
    StageableElsewhere(w, w2, row.identity.db, op, row.payload, o);
    OpenedAttemptAlone(w2, a2, o, mutating);
  }

  // ---------------------------------------------------------------- a COMMITTED row

  /** Once the row is COMMITTED a retry only reads it: nothing changes, and the answer is the card of
      the row, whatever has become of the board since. */
  lemma {:induction false} RetryReadsTheReceipt(s: State, op: OpId, row: Row, o: Oracle)
    requires s.attempt.None? && op in s.world.ledger && s.world.ledger[op] == row && o.outcome.Ok?
    requires row.state.Committed? && row.task.Some?
    ensures var s' := Run(s, OneAttempt(s, op, row.payload, o, 3));
            && s'.attempt.None? && s'.world == s.world
            && s'.replies == s.replies
                             + [Reply(op, s.nextAttempt, Success(false, row.task.value, row.identity.slug), |s.world.created|)]
  {
    hide Run, OneAttempt, WorkStep, MutateBoard;
    var w := s.world;
    OneAttemptIsAlone(s, op, row.payload, o, 3);
    var a := Fresh(s.nextAttempt, op, row.payload);
    var a1 := a.(place := LedgerRead, locals := a.locals.(entry := Some(row)));
    assert Alone(w, a, o, 3) == Alone(w, a1.(place := Historical), o, 1) by {
      hide Alone;
      OneStep(w, a, o, 3, w, a1);
      OneStep(w, a1, o, 2, w, a1.(place := Historical));
    }
    assert Step(w, a1.(place := Historical), o).Leave?;
  }
}
