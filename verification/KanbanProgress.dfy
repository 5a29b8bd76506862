/** The Kanban protocol does get its work done, and where its guarantees end. */
module KanbanProgress {
  import opened Options
  import opened KanbanProtocol
  import opened KanbanInvariant

  /** Up to `n` steps of one attempt with nobody interfering. */
  ghost function Alone(w: World, a: Attempt, o: Oracle, n: nat): Move
    decreases n
  {
    if n == 0 then Go(w, a.place, a.locals)
    else
      var m := Step(w, a, o);
      if m.Leave? then m else Alone(m.world, a.(place := m.place, locals := m.locals), o, n - 1)
  }

  /** The run in which the attempt in the lock advances until it answers. */
  ghost function Advances(w: World, a: Attempt, o: Oracle, n: nat): seq<Event>
    decreases n
  {
    if n == 0 then []
    else
      var m := Step(w, a, o);
      [Advance(o)] + if m.Leave? then [] else Advances(m.world, a.(place := m.place, locals := m.locals), o, n - 1)
  }

  /** Steps that nobody interferes with are a run. */
  lemma {:induction false} AloneIsRun(s: State, a: Attempt, o: Oracle, n: nat)
    requires s.attempt == Some(a)
    ensures Run(s, Advances(s.world, a, o, n)) == Apply(s, a, Alone(s.world, a, o, n))
    decreases n
  {
    hide Step;
    if n > 0 {
      var m := Step(s.world, a, o);
      var first := [Advance(o)];
      assert Run(s, first) == Apply(s, a, m) by { assert first[..0] == []; assert Run(s, []) == s; }
      if m.Go? {
        var b := a.(place := m.place, locals := m.locals);
        AloneIsRun(Apply(s, a, m), b, o, n - 1);
        RunAppend(s, first, Advances(m.world, b, o, n - 1));
      }
    }
  }

  /** The oracle brings a new card of `payload` for `op` that the database has room for. */
  predicate Stageable(w: World, db: DbId, op: OpId, payload: Payload, o: Oracle) {
    && o.task !in TableOf(w, db) && (forall t :: t in TableOf(w, db) ==> TableOf(w, db)[t].key != Some(op))
    && o.card.(key := Some(op), sticky := true) == ParkedCard(op, payload)
  }

  /** The oracle of an undisturbed creation of `payload` for `op` on `slug`. */
  predicate Favourable(w: World, op: OpId, payload: Payload, slug: Slug, o: Oracle) {
    && o.outcome.Ok? && o.choice == Chosen(slug)
    && GenerationOf(w, slug).Some? && Stageable(w, GenerationOf(w, slug).value.db, op, payload, o)
  }

  function RowOf(w: World, payload: Payload, slug: Slug, state: RowState): Row
    requires GenerationOf(w, slug).Some?
  {
    Row(payload, GenerationOf(w, slug).value, state, None)
  }

  lemma OneStep(w: World, a: Attempt, o: Oracle, n: nat, w': World, b: Attempt)
    requires n > 0 && b == a.(place := b.place, locals := b.locals) && Step(w, a, o) == Go(w', b.place, b.locals)
    ensures Alone(w, a, o, n) == Alone(w', b, o, n - 1)
  {
  }

  // ---------------------------------------------------------------- from the lock to the row

  /** From the lock to the selected board: three steps that write nothing. */
  lemma AloneToSelected(w: World, a: Attempt, o: Oracle, slug: Slug, n: nat)
    requires n >= 3 && a == Fresh(a.no, a.op, a.payload) && a.op !in w.ledger
    requires o.outcome.Ok? && o.choice == Chosen(slug)
    ensures Alone(w, a, o, n) == Alone(w, a.(place := Selected, locals := a.locals.(board := slug)), o, n - 3)
  {
    hide MutateBoard, WorkStep, Alone;
    var a1 := a.(place := LedgerRead);
    OneStep(w, a, o, n, w, a1);
    var a2 := a.(place := Selecting);
    OneStep(w, a1, o, n - 1, w, a2);
    OneStep(w, a2, o, n - 2, w, a.(place := Selected, locals := a.locals.(board := slug)));
  }

  /** The default board is known but its database has never been made, and the oracle brings a
      database that was never at that path. */
  predicate DefaultMissing(w: World, o: Oracle) {
    && DEFAULT_BOARD in w.boards && !w.boards[DEFAULT_BOARD].archived
    && w.boards[DEFAULT_BOARD].path !in w.files && (w.boards[DEFAULT_BOARD].path, o.db) !in w.used
  }

  /** The missing default database is made once, before any row is written. */
  lemma AloneInitializes(w: World, a: Attempt, o: Oracle, n: nat)
    requires n >= 3 && a.place.Selected? && a.authorized && o.outcome.Ok?
    requires a.locals.board == DEFAULT_BOARD && DefaultMissing(w, o)
    ensures Alone(w, a, o, n)
            == Alone(Install(w, w.boards[DEFAULT_BOARD].path, o.db), a.(place := Pinning), o, n - 3)
  {
    hide MutateBoard, WorkStep, Alone;
    var w1 := Install(w, w.boards[DEFAULT_BOARD].path, o.db);
    OneStep(w, a, o, n, w, a.(place := InitDefault));
    OneStep(w, a.(place := InitDefault), o, n - 1, w1, a.(place := DefaultReady));
    OneStep(w1, a.(place := DefaultReady), o, n - 2, w1, a.(place := Pinning));
  }

  /** A board whose database is there needs no initialization. */
  lemma AloneToPinning(w: World, a: Attempt, o: Oracle, n: nat)
    requires n >= 1 && a.place.Selected? && a.authorized && o.outcome.Ok? && GenerationOf(w, a.locals.board).Some?
    ensures Alone(w, a, o, n) == Alone(w, a.(place := Pinning), o, n - 1)
  {
    hide MutateBoard, WorkStep, Alone;
    OneStep(w, a, o, n, w, a.(place := Pinning));
  }

  /** An attempt about to pin the generation of its board. */
  predicate AtPinning(w: World, a: Attempt) {
    a.place.Pinning? && a.authorized && a.op !in w.ledger && GenerationOf(w, a.locals.board).Some?
  }

  /** The same attempt holding its new PREPARED row. */
  function WithIntent(w: World, a: Attempt): Attempt
    requires AtPinning(w, a)
  {
    a.(place := CheckCurrent,
       locals := a.locals.(entry := Some(RowOf(w, a.payload, a.locals.board, Prepared)),
                           generation := GenerationOf(w, a.locals.board)))
  }

  lemma AloneToIntent(w: World, a: Attempt, o: Oracle, n: nat)
    requires n >= 3 && AtPinning(w, a) && o.outcome.Ok?
    ensures Alone(w, a, o, n)
            == Alone(WithRow(w, a.op, RowOf(w, a.payload, a.locals.board, Prepared)), WithIntent(w, a), o, n - 3)
  {
    hide MutateBoard, WorkStep, Alone;
    var a1 := a.(place := Pinned, locals := a.locals.(generation := GenerationOf(w, a.locals.board)));
    OneStep(w, a, o, n, w, a1);
    OneStep(w, a1, o, n - 1, w, a1.(place := Intent));
    OneStep(w, a1.(place := Intent), o, n - 2, WithRow(w, a.op, RowOf(w, a.payload, a.locals.board, Prepared)), WithIntent(w, a));
  }

  // ---------------------------------------------------------------- from the row to the receipt

  /** The attempt owns the row and the pinned board is still current. */
  predicate OnTrack(w: World, a: Attempt, row: Row, o: Oracle) {
    && a.locals.entry == Some(row) && a.op in w.ledger && w.ledger[a.op] == row
    && a.authorized && GenerationMatches(w, row.identity, o)
  }

  /** The attempt that has just moved `row` and is about to open the board. */
  function Opening(a: Attempt, row: Row): Attempt {
    a.(place := Open, locals := a.locals.(entry := Some(row.(state := Mutating)), mayCreate := true))
  }

  /** From the intent to the board: the row is now MUTATING. */
  lemma AloneToOpen(w: World, a: Attempt, o: Oracle, row: Row, n: nat)
    requires n >= 3 && a.place.CheckCurrent? && OnTrack(w, a, row, o) && row.state.Prepared?
    ensures Alone(w, a, o, n) == Alone(WithRow(w, a.op, row.(state := Mutating)), Opening(a, row), o, n - 3)
  {
    hide MutateBoard, PrepareStep, Alone;
    var a1 := a.(place := CheckAuthority);
    OneStep(w, a, o, n, w, a1);
    var a2 := a.(place := Mark, locals := a.locals.(mayCreate := true));
    OneStep(w, a1, o, n - 1, w, a2);
    OneStep(w, a2, o, n - 2, WithRow(w, a.op, row.(state := Mutating)), Opening(a, row));
  }

  /** The attempt whose connection is now open on the database `db`. */
  function OpenedOn(a: Attempt, db: DbId): Attempt {
    a.(place := CheckOpened, locals := a.locals.(txn := Txn(db, None, 0)))
  }

  /** Whatever database lies at the pinned path is the one that is opened. */
  lemma OpensWhatIsThere(w: World, a: Attempt, o: Oracle, row: Row)
    requires a.place.Open? && a.locals.entry == Some(row) && o.outcome.Ok? && row.identity.path in w.files
    ensures var b := OpenedOn(a, w.files[row.identity.path]); Step(w, a, o) == Go(w, b.place, b.locals)
  {
    hide MutateBoard, PrepareStep;
  }

  /** From the open connection into the board transaction, checked once more for authority. */
  lemma AloneToMutate(w: World, a: Attempt, o: Oracle, row: Row, n: nat)
    requires n >= 4 && a.place.CheckOpened? && OnTrack(w, a, row, o)
    requires a.locals.txn == Txn(a.locals.txn.conn, None, 0)
    ensures Alone(w, a, o, n) == Alone(w, Mutator(a, row), o, n - 4)
  {
    hide MutateBoard, PrepareStep, Alone;
    var db := a.locals.txn.conn;
    var a1 := a.(place := Begin);
    OneStep(w, a, o, n, w, a1);
    var a2 := a.(place := CheckLocked);
    OneStep(w, a1, o, n - 1, w, a2);
    var a3 := a.(place := FirstAuthority, locals := a.locals.(txn := Txn(db, Some(row.identity), 0)));
    OneStep(w, a2, o, n - 2, w, a3);
    OneStep(w, a3, o, n - 3, w, Mutator(a, row));
  }

  /** The attempt inside its board transaction, after the first authority check. */
  function Mutator(a: Attempt, row: Row): Attempt {
    a.(place := Mutate, locals := a.locals.(txn := Txn(a.locals.txn.conn, Some(row.identity), 1)))
  }

  /** The new card is staged: it passes its own verification. */
  lemma MutateStages(w: World, a: Attempt, o: Oracle)
    requires o.outcome.Ok? && a.locals.mayCreate && Stageable(w, a.locals.txn.conn, a.op, a.payload, o)
    ensures var b := Committer(w, a, o);
            MutateBoard(w, a, o) == Go(w, SecondAuthority, b.locals.(txn := a.locals.txn))
  {
    assert Keyed(TableOf(w, a.locals.txn.conn), a.op) == {};
  }

  lemma StepMutates(w: World, a: Attempt, o: Oracle)
    requires a.place.Mutate? && a.locals.entry.Some?
    ensures Step(w, a, o) == MutateBoard(w, a, o)
  {
    hide MutateBoard;
  }

  lemma MatchedIsOk(w: World, identity: Identity, o: Oracle)
    requires GenerationMatches(w, identity, o)
    ensures o.outcome.Ok? && GenerationOf(w, identity.slug) == Some(identity)
    ensures identity.path in w.files && w.files[identity.path] == identity.db
  {
  }

  /** The attempt `b`, about to commit, before its second authority check. */
  function BeforeSecond(b: Attempt): Attempt
    requires b.locals.txn.authorityPasses > 0
  {
    b.(place := SecondAuthority, locals := b.locals.(txn := b.locals.txn.(authorityPasses := b.locals.txn.authorityPasses - 1)))
  }

  /** The second authority check and the commit, whatever is staged. */
  lemma AloneCommits(w: World, b: Attempt, o: Oracle, row: Row, n: nat)
    requires n >= 2 && b.place.CommitBoard? && b.authorized && b.locals.entry == Some(row) && o.outcome.Ok?
    requires b.locals.txn.authorityPasses > 0
    ensures Alone(w, BeforeSecond(b), o, n) == Alone(Committing(w, b, row), b.(place := CheckPost), o, n - 2)
  {
    hide PrepareStep, Alone, MutateBoard, Committing, GenerationMatches;
    OneStep(w, BeforeSecond(b), o, n, w, b);
    OneStep(w, b, o, n - 1, Committing(w, b, row), b.(place := CheckPost));
  }

  /** The creation itself, up to the committed board transaction. */
  lemma AloneToCommitted(w: World, a: Attempt, o: Oracle, row: Row, n: nat)
    requires n >= 3 && a.place.Mutate? && OnTrack(w, a, row, o) && a.locals.mayCreate
    requires a.locals.txn.authorityPasses == 1 && Stageable(w, a.locals.txn.conn, a.op, a.payload, o)
    ensures var b := Committer(w, a, o);
            Alone(w, a, o, n) == Alone(Committing(w, b, row), b.(place := CheckPost), o, n - 3)
  {
    MatchedIsOk(w, row.identity, o);
    MutateStages(w, a, o);
    StepMutates(w, a, o);
    hide Step, Alone, MutateBoard, Stageable, GenerationMatches, TableOf, Committing;
    var b := Committer(w, a, o);
    OneStep(w, a, o, n, w, BeforeSecond(b));
    AloneCommits(w, b, o, row, n - 1);
  }

  /** The attempt about to commit the card of the oracle. */
  function Committer(w: World, a: Attempt, o: Oracle): Attempt {
    a.(place := CommitBoard,
       locals := a.locals.(task := o.task, createdNow := true, txn := a.locals.txn.(authorityPasses := 2),
                           staged := TableOf(w, a.locals.txn.conn)[o.task := o.card.(key := Some(a.op), sticky := true)]))
  }

  /** From the committed board to the receipt. */
  lemma AloneToReceipt(w: World, a: Attempt, o: Oracle, row: Row)
    requires a.place.CheckPost? && OnTrack(w, a, row, o) && row.state.Mutating?
    ensures var done := row.(state := Committed, task := Some(a.locals.task));
            Alone(w, a, o, 3) == Leave(WithRow(w, a.op, done), Success(a.locals.createdNow, a.locals.task, row.identity.slug))
  {
    hide Step, Alone, GenerationMatches;
    MatchedIsOk(w, row.identity, o);
    var w2 := WithRow(w, a.op, row.(state := Committed, task := Some(a.locals.task)));
    LastSteps(w, a, row, o);
    OneStep(w, a, o, 3, w, a.(place := Finalize));
    OneStep(w, a.(place := Finalize), o, 2, w2, a.(place := Receipt));
    GivesReceipt(w2, a.(place := Receipt), o);
    LastStep(w2, a.(place := Receipt), o);
  }

  lemma LastSteps(w: World, a: Attempt, row: Row, o: Oracle)
    requires a.place.CheckPost? && OnTrack(w, a, row, o) && row.state.Mutating?
    ensures Step(w, a, o) == Go(w, Finalize, a.locals)
    ensures var w2 := WithRow(w, a.op, row.(state := Committed, task := Some(a.locals.task)));
            Step(w, a.(place := Finalize), o) == Go(w2, Receipt, a.locals)
  {
    hide PrepareStep, MutateBoard;
  }

  lemma GivesReceipt(w: World, a: Attempt, o: Oracle)
    requires a.place.Receipt? && a.locals.entry.Some? && o.outcome.Ok? && a.op in w.ledger
    requires w.ledger[a.op].state.Committed? && w.ledger[a.op].task.Some?
    ensures Step(w, a, o) == Leave(w, Success(a.locals.createdNow, w.ledger[a.op].task.value, w.ledger[a.op].identity.slug))
  {
    hide PrepareStep, MutateBoard;
  }

  lemma LastStep(w: World, a: Attempt, o: Oracle)
    requires Step(w, a, o).Leave?
    ensures Alone(w, a, o, 1) == Step(w, a, o)
  {
    hide Step;
  }

  /** The attempt answers with the one card it committed, in the database it had opened. */
  predicate Acknowledges(w: World, a: Attempt, o: Oracle, row: Row, db: DbId, m: Move) {
    && m.Leave? && m.answer == Success(true, o.task, row.identity.slug)
    && m.world.created == w.created + [Creation(a.op, a.no, o.task, row.identity, Txn(db, Some(row.identity), 2))]
    && m.world.ledger == w.ledger[a.op := row.(state := Committed, task := Some(o.task))]
    && o.task in TableOf(m.world, db) && TableOf(m.world, db)[o.task].key == Some(a.op)
  }

  /** From the open connection to the receipt, whatever database the connection leads to. */
  lemma OpenedAttemptAlone(w: World, a: Attempt, o: Oracle, row: Row)
    requires a.place.CheckOpened? && OnTrack(w, a, row, o) && a.locals.mayCreate && row.state.Mutating?
    requires a.locals.txn == Txn(a.locals.txn.conn, None, 0)
    requires Stageable(w, a.locals.txn.conn, a.op, a.payload, o)
    ensures Acknowledges(w, a, o, row, a.locals.txn.conn, Alone(w, a, o, 10))
  {
    hide Step, Alone, Stageable;
    AloneToMutate(w, a, o, row, 10);
    var a1 := Mutator(a, row);
    AloneToCommitted(w, a1, o, row, 6);
    var b := Committer(w, a1, o);
    AloneToReceipt(Committing(w, b, row), b.(place := CheckPost), o, row);
  }

  // ---------------------------------------------------------------- a whole undisturbed attempt

  /** From the pinning to the receipt. */
  lemma PinningAttemptAlone(w: World, a: Attempt, o: Oracle)
    requires AtPinning(w, a) && Favourable(w, a.op, a.payload, a.locals.board, o)
    ensures var row := RowOf(w, a.payload, a.locals.board, Mutating);
            Acknowledges(w, a, o, row, row.identity.db, Alone(w, a, o, 17))
  {
    hide Step, Alone, VerifiedParked;
    AloneToIntent(w, a, o, 17);
    var row := RowOf(w, a.payload, a.locals.board, Prepared);
    var w1 := WithRow(w, a.op, row);
    var a1 := WithIntent(w, a);
    AloneToOpen(w1, a1, o, row, 14);
    var mutating := row.(state := Mutating);
    var w2 := WithRow(w1, a.op, mutating);
    OpensWhatIsThere(w2, Opening(a1, row), o, mutating);
    var a2 := OpenedOn(Opening(a1, row), row.identity.db);
    OneStep(w2, Opening(a1, row), o, 11, w2, a2);
    OpenedAttemptAlone(w2, a2, o, mutating);
  }

  /** One card, made in the pinned generation and acknowledged, and nothing else. */
  predicate Acknowledged(s: State, s': State, op: OpId, payload: Payload, id: Identity, o: Oracle) {
    && s'.attempt.None?
    && s'.world.created == s.world.created + [Creation(op, s.nextAttempt, o.task, id, Txn(id.db, Some(id), 2))]
    && s'.replies == s.replies + [Reply(op, s.nextAttempt, Success(true, o.task, id.slug), |s.world.created| + 1)]
    && s'.world.ledger == s.world.ledger[op := Row(payload, id, Committed, Some(o.task))]
  }

  /** The run of one attempt that nobody disturbs, for `n` steps. */
  ghost function OneAttempt(s: State, op: OpId, payload: Payload, o: Oracle, n: nat): seq<Event> {
    [Enter(op, payload)] + Advances(s.world, Fresh(s.nextAttempt, op, payload), o, n)
  }

  lemma OneAttemptIsAlone(s: State, op: OpId, payload: Payload, o: Oracle, n: nat)
    requires s.attempt.None?
    ensures var a := Fresh(s.nextAttempt, op, payload);
            Run(s, OneAttempt(s, op, payload, o, n)) == Apply(Next(s, Enter(op, payload)), a, Alone(s.world, a, o, n))
  {
    hide Step;
    var enter := [Enter(op, payload)];
    var s1 := Next(s, Enter(op, payload));
    assert Run(s, enter) == s1 by { assert enter[..0] == []; assert Run(s, []) == s; }
    RunAppend(s, enter, Advances(s.world, s1.attempt.value, o, n));
    AloneIsRun(s1, s1.attempt.value, o, n);
  }

  /** An undisturbed first attempt on an active board commits one card, in the pinned generation,
      and acknowledges exactly that card. */
  lemma {:induction false} FirstAttemptAcknowledges(s: State, op: OpId, payload: Payload, slug: Slug, o: Oracle)
    requires s.attempt.None? && op !in s.world.ledger && Favourable(s.world, op, payload, slug, o)
    ensures Acknowledged(s, Run(s, OneAttempt(s, op, payload, o, 21)), op, payload, GenerationOf(s.world, slug).value, o)
  {
    hide Step, Run, Alone, OneAttempt, Stageable;
    OneAttemptIsAlone(s, op, payload, o, 21);
    var a := Fresh(s.nextAttempt, op, payload);
    AloneToSelected(s.world, a, o, slug, 21);
    var a1 := a.(place := Selected, locals := a.locals.(board := slug));
    AloneToPinning(s.world, a1, o, 18);
    PinningAttemptAlone(s.world, a1.(place := Pinning), o);
  }

  /** When the default board has no database yet, the undisturbed first attempt makes it, pins it
      and commits its card there. */
  lemma {:induction false} FirstAttemptInitializesDefault(s: State, op: OpId, payload: Payload, o: Oracle)
    requires s.attempt.None? && op !in s.world.ledger && DefaultMissing(s.world, o)
    requires Favourable(Install(s.world, s.world.boards[DEFAULT_BOARD].path, o.db), op, payload, DEFAULT_BOARD, o)
    ensures var w := Install(s.world, s.world.boards[DEFAULT_BOARD].path, o.db);
            var id := GenerationOf(w, DEFAULT_BOARD).value;
            id.db == o.db && Acknowledged(s, Run(s, OneAttempt(s, op, payload, o, 23)), op, payload, id, o)
  {
    hide Step, Run, Alone, OneAttempt, Stageable;
    OneAttemptIsAlone(s, op, payload, o, 23);
    var a := Fresh(s.nextAttempt, op, payload);
    AloneToSelected(s.world, a, o, DEFAULT_BOARD, 23);
    var a1 := a.(place := Selected, locals := a.locals.(board := DEFAULT_BOARD));
    AloneInitializes(s.world, a1, o, 20);
    PinningAttemptAlone(Install(s.world, s.world.boards[DEFAULT_BOARD].path, o.db), a1.(place := Pinning), o);
  }

  // ---------------------------------------------------------------- where the guarantees end

  /** An undisturbed first attempt just before it opens the board. */
  lemma FirstAttemptOpens(s: State, op: OpId, payload: Payload, slug: Slug, o: Oracle)
    requires s.attempt.None? && op !in s.world.ledger && Favourable(s.world, op, payload, slug, o)
    ensures var s1 := Run(s, OneAttempt(s, op, payload, o, 10));
            var row := RowOf(s.world, payload, slug, Mutating);
            && s1.world == WithRow(s.world, op, row) && s1.replies == s.replies
            && s1.attempt.Some? && s1.attempt.value.place.Open? && s1.attempt.value.authorized
            && s1.attempt.value.no == s.nextAttempt && s1.attempt.value.op == op && s1.attempt.value.payload == payload
            && s1.attempt.value.locals.entry == Some(row) && s1.attempt.value.locals.mayCreate
  {
    hide Step, Run, OneAttempt, Stageable;
    OneAttemptIsAlone(s, op, payload, o, 10);
    var w := s.world;
    var a := Fresh(s.nextAttempt, op, payload);
    AloneToSelected(w, a, o, slug, 10);
    var a1 := a.(place := Selected, locals := a.locals.(board := slug));
    AloneToPinning(w, a1, o, 7);
    var a2 := a1.(place := Pinning);
    AloneToIntent(w, a2, o, 6);
    var row := RowOf(w, payload, slug, Prepared);
    AloneToOpen(WithRow(w, op, row), WithIntent(w, a2), o, row, 3);
    assert WithRow(WithRow(w, op, row), op, row.(state := Mutating)).ledger
        == WithRow(w, op, row.(state := Mutating)).ledger;
  }

  /** The hypothesis that generations are never reused is needed.  Let a foreign database be put at
      the pinned path just before the attempt opens it (a run of the machine), and let the pinned
      one come back right after (which the machine rules out).  Every check passes, and the attempt
      commits its card in the foreign database and acknowledges it. */
  lemma {:induction false} ReuseDefeatsTheCheck(s: State, op: OpId, payload: Payload, slug: Slug, o: Oracle, other: DbId)
    requires s.attempt.None? && op !in s.world.ledger && Favourable(s.world, op, payload, slug, o)
    requires var id := GenerationOf(s.world, slug).value; other != id.db && (id.path, other) !in s.world.used
    requires Stageable(s.world, other, op, payload, o)
    ensures var id := GenerationOf(s.world, slug).value;
            var foreign := Run(s, OneAttempt(s, op, payload, o, 10) + [Outside(InstallFile(id.path, other)), Advance(o)]);
            var back := foreign.(world := Install(foreign.world, id.path, id.db));
            && foreign.attempt.Some?
            && var s' := Run(back, Advances(back.world, foreign.attempt.value, o, 10));
            && s'.world.created == s.world.created + [Creation(op, s.nextAttempt, o.task, id, Txn(other, Some(id), 2))]
            && s'.replies == s.replies + [Reply(op, s.nextAttempt, Success(true, o.task, slug), |s.world.created| + 1)]
            && o.task in TableOf(s'.world, other) && TableOf(s'.world, other)[o.task].key == Some(op)
  {
    hide Step, Run, OneAttempt, Advances, Stageable, Alone, GenerationOf, Install, TableOf;
    var id := GenerationOf(s.world, slug).value;
    var first := OneAttempt(s, op, payload, o, 10);
    var s1 := Run(s, first);
    var row := RowOf(s.world, payload, slug, Mutating);
    FirstAttemptOpens(s, op, payload, slug, o);
    ReuseOpens(s1, o, id, other);
    RunAppend(s, first, [Outside(InstallFile(id.path, other)), Advance(o)]);
    var foreign := Run(s1, [Outside(InstallFile(id.path, other)), Advance(o)]);
    var back := foreign.(world := Install(foreign.world, id.path, id.db));
    PinnedIsBack(s.world, op, row, slug, other);
    assert back.world == Install(Install(WithRow(s.world, op, row), id.path, other), id.path, id.db);
    StageableElsewhere(s.world, back.world, other, op, payload, o);
    ReuseEnds(back, foreign.attempt.value, o, row);
  }

  /** After the detour the pinned board is current again and no table has changed. */
  lemma PinnedIsBack(w: World, op: OpId, row: Row, slug: Slug, other: DbId)
    requires GenerationOf(w, slug) == Some(row.identity)
    ensures var id := row.identity; var w' := Install(Install(WithRow(w, op, row), id.path, other), id.path, id.db);
            && GenerationOf(w', slug) == Some(id) && (forall db :: TableOf(w', db) == TableOf(w, db))
            && w'.ledger == w.ledger[op := row] && w'.created == w.created && id.slug == slug
  {
  }

  /** The rest of the attempt, from the open foreign connection. */
  lemma ReuseEnds(s: State, a: Attempt, o: Oracle, row: Row)
    requires s.attempt == Some(a) && a.place.CheckOpened? && OnTrack(s.world, a, row, o)
    requires a.locals.mayCreate && row.state.Mutating? && a.locals.txn == Txn(a.locals.txn.conn, None, 0)
    requires Stageable(s.world, a.locals.txn.conn, a.op, a.payload, o)
    ensures var s' := Run(s, Advances(s.world, a, o, 10)); var db := a.locals.txn.conn;
            && s'.world.created == s.world.created + [Creation(a.op, a.no, o.task, row.identity, Txn(db, Some(row.identity), 2))]
            && s'.replies == s.replies
                             + [Reply(a.op, a.no, Success(true, o.task, row.identity.slug), |s.world.created| + 1)]
            && o.task in TableOf(s'.world, db) && TableOf(s'.world, db)[o.task].key == Some(a.op)
  {
    hide Step, Run, Advances, Stageable, Alone, OnTrack;
    OpenedAttemptAlone(s.world, a, o, row);
    AloneIsRun(s, a, o, 10);
  }

  lemma StageableElsewhere(w: World, w': World, db: DbId, op: OpId, payload: Payload, o: Oracle)
    requires Stageable(w, db, op, payload, o) && TableOf(w', db) == TableOf(w, db)
    ensures Stageable(w', db, op, payload, o)
  {
  }

  /** The attempt opens the foreign database that was put at its path. */
  lemma ReuseOpens(s: State, o: Oracle, id: Identity, other: DbId)
    requires s.attempt.Some? && s.attempt.value.place.Open? && o.outcome.Ok?
    requires s.attempt.value.locals.entry.Some? && s.attempt.value.locals.entry.value.identity == id
    requires (id.path, other) !in s.world.used
    ensures var foreign := Run(s, [Outside(InstallFile(id.path, other)), Advance(o)]);
            foreign == s.(world := Install(s.world, id.path, other), attempt := Some(OpenedOn(s.attempt.value, other)))
  {
    var e1 := Outside(InstallFile(id.path, other));
    var events := [e1, Advance(o)];
    var s1 := Next(s, e1);
    OpensWhatIsThere(s1.world, s.attempt.value, o, s.attempt.value.locals.entry.value);
    hide Step;
    assert Run(s, [e1]) == s1 by { assert [e1][..0] == []; assert Run(s, []) == s; }
    assert events[..1] == [e1];
  }

  /** The untyped `not_committed` says nothing about other attempts: it can be the answer to a
      retry after the card was already made and acknowledged. */
  lemma ExpiredAfterTheCard(s: State, op: OpId, payload: Payload, slug: Slug, o: Oracle)
    requires s.attempt.None? && op !in s.world.ledger && Favourable(s.world, op, payload, slug, o)
    ensures exists events :: var s' := Run(s, events);
              Made(s'.world.created, op) && |s'.replies| > 0
              && s'.replies[|s'.replies| - 1].op == op && s'.replies[|s'.replies| - 1].answer == Expired
  {
    hide Step, OneAttempt, Favourable, GenerationOf;
    var first := OneAttempt(s, op, payload, o, 21);
    FirstAttemptAcknowledges(s, op, payload, slug, o);
    var events := first + [TurnedAway(op)];
    var s1 := Run(s, first);
    assert Run(s, events) == AnswerOutside(s1, op, Expired) by { assert events[..|events| - 1] == first; }
    hide Run;
    assert s1.world.created[|s.world.created|].op == op;
    assert Made(Run(s, events).world.created, op);
  }
}
