/** What every attempt answers: the whole attempt when nobody disturbs it, and each way of being stopped. */
module KanbanAnswers {
  import opened Options
  import opened KanbanProtocol
  import opened KanbanInvariant
  import opened KanbanRuns
  import opened KanbanProgress
  import opened KanbanRecovery

  /** The attempt has answered and left the lock; `world` is what it left behind. */
  predicate Answered(s: State, s': State, op: OpId, no: nat, world: World, answer: Answer) {
    && s'.attempt.None? && s'.world == world
    && s'.replies == s.replies + [Reply(op, no, answer, |world.created|)]
  }

  lemma OneLeaves(w: World, a: Attempt, o: Oracle, n: nat, w': World, answer: Answer)
    requires n > 0 && Step(w, a, o) == Leave(w', answer)
    ensures Alone(w, a, o, n) == Leave(w', answer)
  {
    hide Step;
  }

  /** An attempt that ends alone has answered. */
  lemma LeavesIsAnswered(s: State, op: OpId, payload: Payload, o: Oracle, n: nat, w': World, answer: Answer)
    requires s.attempt.None? && Alone(s.world, Fresh(s.nextAttempt, op, payload), o, n) == Leave(w', answer)
    ensures Answered(s, Run(s, OneAttempt(s, op, payload, o, n)), op, s.nextAttempt, w', answer)
  {
    hide Step, Run, Alone, OneAttempt;
    OneAttemptIsAlone(s, op, payload, o, n);
  }

  // ---------------------------------------------------------------- other arguments

  lemma ConflictAlone(w: World, a: Attempt, o: Oracle, row: Row, n: nat)
    requires n >= 2 && a == Fresh(a.no, a.op, a.payload) && o.outcome.Ok?
    requires a.op in w.ledger && w.ledger[a.op] == row && row.payload != a.payload
    ensures row.state.Prepared? ==> Alone(w, a, o, n) == Leave(w, Typed(NotCommitted, OperationConflict))
    ensures row.state.Mutating? ==> Alone(w, a, o, n) == Leave(w, Typed(Unknown, OperationConflict))
    ensures row.state.Committed? ==> Alone(w, a, o, n) == Leave(w, Typed(CommittedOnce, OperationConflict))
  {
    hide MutateBoard, WorkStep, Alone;
    var a1 := a.(place := LedgerRead, locals := a.locals.(entry := Some(row)));
    OneStep(w, a, o, n, w, a1);
    var answer := Typed(if row.state.Prepared? then NotCommitted else if row.state.Mutating? then Unknown else CommittedOnce,
                        OperationConflict);
    OneLeaves(w, a1, o, n - 1, w, answer);
  }

  /** An operation that is used again with other arguments changes nothing and is told how far the
      operation itself has come. */
  lemma {:induction false} ConflictIsAnswered(s: State, op: OpId, payload: Payload, o: Oracle, n: nat)
    requires s.attempt.None? && op in s.world.ledger && s.world.ledger[op].payload != payload && o.outcome.Ok? && n >= 2
    ensures var s' := Run(s, OneAttempt(s, op, payload, o, n)); var state := s.world.ledger[op].state;
            && (state.Prepared? ==> Answered(s, s', op, s.nextAttempt, s.world, Typed(NotCommitted, OperationConflict)))
            && (state.Mutating? ==> Answered(s, s', op, s.nextAttempt, s.world, Typed(Unknown, OperationConflict)))
            && (state.Committed? ==> Answered(s, s', op, s.nextAttempt, s.world, Typed(CommittedOnce, OperationConflict)))
  {
    hide Step, Run, Alone, OneAttempt, Answered;
    var row := s.world.ledger[op];
    ConflictAlone(s.world, Fresh(s.nextAttempt, op, payload), o, row, n);
    LeavesIsAnswered(s, op, payload, o, n, s.world,
                     Typed(if row.state.Prepared? then NotCommitted else if row.state.Mutating? then Unknown else CommittedOnce,
                           OperationConflict));
  }

  /** The attempt that is about to report a row works for its arguments. */
  predicate Reports(w: World, a: Attempt) {
    && (a.place.Historical? ==> a.locals.entry.Some? && a.locals.entry == EntryOf(w, a.op) && a.locals.entry.value.payload == a.payload)
    && (a.place.Receipt? ==> a.op in w.ledger && w.ledger[a.op].payload == a.payload)
  }

  lemma StepReports(w: World, a: Attempt, o: Oracle)
    requires AttemptOk(w, a)
    ensures var m := Step(w, a, o); m.Go? ==> Reports(m.world, a.(place := m.place, locals := m.locals))
  {
    hide Made, MadeBy, MadeAs, MutateBoard, Committing;
    assert a.place.Mutate? ==> MutateGoes(MutateBoard(w, a, o)) by { MutateGoesOn(w, a, o); }
  }

  predicate MutateGoes(m: Move) { m.Go? ==> m.place.SecondAuthority? }

  lemma MutateGoesOn(w: World, a: Attempt, o: Oracle)
    ensures MutateGoes(MutateBoard(w, a, o))
  {
  }

  /** Whoever is answered with a success asked for exactly what the row says. */
  lemma StepSucceeds(w: World, a: Attempt, o: Oracle)
    requires Reports(w, a)
    ensures var m := Step(w, a, o);
            m.Leave? && m.answer.Success? ==>
              && m.world == w && a.op in w.ledger && w.ledger[a.op].payload == a.payload
              && w.ledger[a.op].task == Some(m.answer.task) && w.ledger[a.op].identity.slug == m.answer.board
  {
    hide MutateBoard;
    assert a.place.Mutate? ==> MutateBoard(w, a, o).Leave? ==> !MutateBoard(w, a, o).answer.Success? by { MutateFailsOnly(w, a, o); }
  }

  lemma MutateFailsOnly(w: World, a: Attempt, o: Oracle)
    ensures MutateBoard(w, a, o).Leave? ==> !MutateBoard(w, a, o).answer.Success?
  {
  }

  ghost predicate Reporting(s: State) {
    s.attempt.Some? ==> Reports(s.world, s.attempt.value)
  }

  lemma ChangesKeepLedger(w: World, busy: Option<DbId>, c: Change)
    ensures Changed(w, busy, c).ledger == w.ledger
  {
  }

  lemma NextReports(s: State, e: Event)
    requires Inv(s) && Reporting(s)
    ensures Reporting(Next(s, e))
  {
    InvGives(s);
    hide Inv, CoreOk, AttemptOk, Step, Changed;
    if e.Advance? && s.attempt.Some? { StepReports(s.world, s.attempt.value, e.oracle); }
    else if e.Outside? { ChangesKeepLedger(s.world, Busy(s.attempt), e.change); }
  }

  lemma {:induction false} ReachableReports(events: seq<Event>)
    ensures Reporting(Run(Initial(), events))
    decreases |events|
  {
    hide Next, Inv;
    if events != [] {
      hide Reporting;
      Reachable(events[..|events| - 1]);
      ReachableReports(events[..|events| - 1]);
      NextReports(Run(Initial(), events[..|events| - 1]), events[|events| - 1]);
    } else { assert Reporting(Run(Initial(), events)); }
  }

  /** In every run a success is only ever given to an attempt with the very arguments of the row, and it
      names the task and the board of the row. */
  lemma {:induction false} SuccessIsForTheseArguments(events: seq<Event>, e: Event, r: Reply)
    requires var s := Run(Initial(), events); Next(s, e).replies == s.replies + [r] && r.answer.Success?
    ensures var s := Run(Initial(), events); var ledger := Next(s, e).world.ledger;
            && s.attempt.Some? && s.attempt.value.no == r.attempt && s.attempt.value.op == r.op
            && r.op in ledger && ledger[r.op].payload == s.attempt.value.payload
            && ledger[r.op].task == Some(r.answer.task) && ledger[r.op].identity.slug == r.answer.board
  {
    var s := Run(Initial(), events);
    ReachableReports(events);
    hide Run, Step, Reports;
    assert Next(s, e).replies[|s.replies|] == r;
    if e.Advance? && s.attempt.Some? { StepSucceeds(s.world, s.attempt.value, e.oracle); }
  }

  // ---------------------------------------------------------------- no board to work on

  /** A name that no board or more than one board has is told apart, and nothing is written. */
  lemma {:induction false} UnresolvedIsAnswered(s: State, op: OpId, payload: Payload, o: Oracle, n: nat)
    requires s.attempt.None? && op !in s.world.ledger && o.outcome.Ok? && n >= 4
    ensures var s' := Run(s, OneAttempt(s, op, payload, o, n));
            && (o.choice.NotFound? ==> Answered(s, s', op, s.nextAttempt, s.world, Typed(NotCommitted, BoardNotFound)))
            && (o.choice.Ambiguous? ==> Answered(s, s', op, s.nextAttempt, s.world, Typed(NotCommitted, BoardAmbiguous)))
  {
    hide Run, OneAttempt, MutateBoard, WorkStep, Alone, Answered;
    if !o.choice.Chosen? {
      var w := s.world;
      var a := Fresh(s.nextAttempt, op, payload);
      var code := if o.choice.NotFound? then BoardNotFound else BoardAmbiguous;
      var a1, a2 := a.(place := LedgerRead), a.(place := Selecting);
      var a3 := a.(place := SelectionFailed, locals := a.locals.(code := code));
      OneStep(w, a, o, n, w, a1);
      OneStep(w, a1, o, n - 1, w, a2);
      OneStep(w, a2, o, n - 2, w, a3);
      OneLeaves(w, a3, o, n - 3, w, Typed(NotCommitted, code));
      LeavesIsAnswered(s, op, payload, o, n, w, Typed(NotCommitted, code));
    }
  }

  /** A board that is archived, unknown or has lost its database is not pinned: nothing is written. */
  lemma {:induction false} UnpinnableIsAnswered(s: State, op: OpId, payload: Payload, slug: Slug, o: Oracle, n: nat)
    requires s.attempt.None? && op !in s.world.ledger && o.outcome.Ok? && o.choice == Chosen(slug) && n >= 5
    requires slug in s.world.boards ==> s.world.boards[slug].archived || s.world.boards[slug].path !in s.world.files
    requires slug == DEFAULT_BOARD && slug in s.world.boards ==> s.world.boards[slug].path in s.world.files
    ensures Answered(s, Run(s, OneAttempt(s, op, payload, o, n)), op, s.nextAttempt, s.world, Unreported)
  {
    hide Run, OneAttempt, MutateBoard, WorkStep, Alone, Answered;
    var w := s.world;
    var a := Fresh(s.nextAttempt, op, payload);
    AloneToSelected(w, a, o, slug, n);
    var a3 := a.(place := Selected, locals := a.locals.(board := slug));
    OneStep(w, a3, o, n - 3, w, a3.(place := Pinning));
    OneLeaves(w, a3.(place := Pinning), o, n - 4, w, Unreported);
    LeavesIsAnswered(s, op, payload, o, n, w, Unreported);
  }

  // ---------------------------------------------------------------- a generation that has gone

  /** The pinned board is active, with the very files and metadata that were pinned. */
  predicate StillThere(w: World, id: Identity) {
    && id.slug in w.boards && id.path in w.files && w.files[id.path] == id.db
    && var b := w.boards[id.slug];
       !b.archived && b.path == id.path && b.dir == id.dir && b.meta == id.meta && b.createdAt == id.createdAt
  }

  /** The generation of a board is there exactly when the board is active and has its database, and it
      records all that identifies them. */
  lemma GenerationMeans(w: World, slug: Slug, id: Identity)
    ensures GenerationOf(w, slug) == Some(id) <==> id.slug == slug && StillThere(w, id)
  {
  }

  /** At each of its four checks an attempt goes on exactly when the pinned board is still there and the
      check could be made. */
  lemma {:induction false} ChecksPassExactlyWhen(events: seq<Event>, o: Oracle)
    requires var s := Run(Initial(), events); s.attempt.Some?
    requires var place := Run(Initial(), events).attempt.value.place;
             place.CheckCurrent? || place.CheckOpened? || place.CheckLocked? || place.CheckPost?
    ensures var s := Run(Initial(), events); var a := s.attempt.value;
            && a.locals.entry.Some? && Next(s, Advance(o)).world == s.world
            && (Next(s, Advance(o)).attempt.Some? <==> o.outcome.Ok? && StillThere(s.world, a.locals.entry.value.identity))
  {
    var s := Run(Initial(), events);
    var a := s.attempt.value;
    Reachable(events);
    InvGives(s);
    hide Run, Inv, CoreOk, MutateBoard, PrepareStep;
    assert a.locals.entry.Some?;
    hide AttemptOk;
    GenerationMeans(s.world, a.locals.entry.value.identity.slug, a.locals.entry.value.identity);
  }

  /** When the pinned board has changed, a PREPARED operation is told so and was not committed, a MUTATING
      one is unknown; nothing is written. */
  lemma {:induction false} ChangedBoardIsAnswered(s: State, op: OpId, row: Row, o: Oracle, n: nat)
    requires s.attempt.None? && op in s.world.ledger && s.world.ledger[op] == row && !row.state.Committed?
    requires o.outcome.Ok? && !StillThere(s.world, row.identity) && n >= 3
    ensures var s' := Run(s, OneAttempt(s, op, row.payload, o, n));
            && (row.state.Prepared? ==> Answered(s, s', op, s.nextAttempt, s.world, Typed(NotCommitted, GenerationChanged)))
            && (row.state.Mutating? ==> Answered(s, s', op, s.nextAttempt, s.world, Typed(Unknown, OutcomeUnknown)))
  {
    hide Run, OneAttempt, MutateBoard, Alone, Answered;
    var w := s.world;
    var a := Fresh(s.nextAttempt, op, row.payload);
    GenerationMeans(w, row.identity.slug, row.identity);
    var a1 := a.(place := LedgerRead, locals := a.locals.(entry := Some(row)));
    var answer := if row.state.Prepared? then Typed(NotCommitted, GenerationChanged) else Typed(Unknown, OutcomeUnknown);
    OneStep(w, a, o, n, w, a1);
    OneStep(w, a1, o, n - 1, w, Resumed(a, row));
    OneLeaves(w, Resumed(a, row), o, n - 2, w, answer);
    LeavesIsAnswered(s, op, row.payload, o, n, w, answer);
  }

  // ---------------------------------------------------------------- a board without the one card

  /** A MUTATING operation whose pinned board does not hold exactly one card for it, or holds one that
      was changed, stays unknown: nothing is written and no card is made. */
  lemma {:induction false} MissingCardIsUnknown(s: State, op: OpId, row: Row, o: Oracle, n: nat)
    requires s.attempt.None? && Resumable(s.world, op, row.payload, row, o) && row.state.Mutating? && n >= 10
    requires forall task :: !HoldsCard(s.world, row, op, task)
    ensures Answered(s, Run(s, OneAttempt(s, op, row.payload, o, n)), op, s.nextAttempt, s.world, Typed(Unknown, OutcomeUnknown))
  {
    hide Run, OneAttempt, Alone, Answered, HoldsCard, MutateBoard, Step;
    var w := s.world;
    var a := Fresh(s.nextAttempt, op, row.payload);
    AloneToRow(w, a, o, row, n);
    AloneToReopen(w, Resumed(a, row), o, row, n - 2);
    var a1 := OpenedOn(Resumed(a, row).(locals := Resumed(a, row).locals.(mayCreate := false)), row.identity.db);
    AloneToMutate(w, a1, o, row, n - 5);
    StepMutates(w, Mutator(a1, row), o);
    MutateNeedsCard(w, Mutator(a1, row), o, row);
    OneLeaves(w, Mutator(a1, row), o, n - 9, w, Typed(Unknown, OutcomeUnknown));
    LeavesIsAnswered(s, op, row.payload, o, n, w, Typed(Unknown, OutcomeUnknown));
  }

  lemma MutateNeedsCard(w: World, a: Attempt, o: Oracle, row: Row)
    requires !a.locals.mayCreate && a.locals.txn.conn == row.identity.db && a.payload == row.payload
    requires forall task :: !HoldsCard(w, row, a.op, task)
    ensures MutateBoard(w, a, o) == Leave(w, Typed(Unknown, OutcomeUnknown))
  {
    var found := Keyed(TableOf(w, row.identity.db), a.op);
    if found != {} && |found| <= 1 {
      var task := Pick(found);
      OneOnly(found, task);
      assert forall t :: t in TableOf(w, row.identity.db) && TableOf(w, row.identity.db)[t].key == Some(a.op) ==> t in found;
      assert !HoldsCard(w, row, a.op, task);
    }
  }

  lemma OneOnly(s: set<TaskId>, t: TaskId)
    requires t in s && |s| <= 1
    ensures s == {t}
  {
    assert |s - {t}| == |s| - 1;
    assert s - {t} == {};
  }

  /** A PREPARED operation whose new card cannot be staged is left MUTATING and unknown, without a card. */
  lemma {:induction false} UnstageableIsUnknown(s: State, op: OpId, row: Row, o: Oracle, n: nat)
    requires s.attempt.None? && Resumable(s.world, op, row.payload, row, o) && row.state.Prepared? && n >= 11
    requires Keyed(TableOf(s.world, row.identity.db), op) == {}
    requires !Stageable(s.world, row.identity.db, op, row.payload, o)
    ensures Answered(s, Run(s, OneAttempt(s, op, row.payload, o, n)), op, s.nextAttempt,
                     s.world.(ledger := s.world.ledger[op := row.(state := Mutating)]), Typed(Unknown, OutcomeUnknown))
  {
    hide Run, OneAttempt, Alone, Answered, MutateBoard, Step, Stageable;
    var w := s.world;
    var a := Fresh(s.nextAttempt, op, row.payload);
    AloneToRow(w, a, o, row, n);
    var a1 := Resumed(a, row);
    AloneToOpen(w, a1, o, row, n - 2);
    MatchedIsOk(w, row.identity, o);
    var mutating := row.(state := Mutating);
    var w2 := WithRow(w, op, mutating);
    OpensWhatIsThere(w2, Opening(a1, row), o, mutating);
    var a2 := OpenedOn(Opening(a1, row), row.identity.db);
    OneStep(w2, Opening(a1, row), o, n - 5, w2, a2);
    AloneToMutate(w2, a2, o, mutating, n - 6);
    var a3 := Mutator(a2, mutating);
    StepMutates(w2, a3, o);
    if Stageable(w2, row.identity.db, op, row.payload, o) { StageableElsewhere(w2, w, row.identity.db, op, row.payload, o); }
    MutateCannotStage(w2, a3, o);
    OneLeaves(w2, a3, o, n - 10, w2, Typed(Unknown, OutcomeUnknown));
    LeavesIsAnswered(s, op, row.payload, o, n, w2, Typed(Unknown, OutcomeUnknown));
  }

  lemma MutateCannotStage(w: World, a: Attempt, o: Oracle)
    requires Keyed(TableOf(w, a.locals.txn.conn), a.op) == {} && !Stageable(w, a.locals.txn.conn, a.op, a.payload, o)
    ensures MutateBoard(w, a, o) == Leave(w, Typed(Unknown, OutcomeUnknown))
  {
    var table := TableOf(w, a.locals.txn.conn);
    assert forall t :: t in table && table[t].key == Some(a.op) ==> t in Keyed(table, a.op);
  }

  // ---------------------------------------------------------------- revoked attempts

  /** The places at which the code asks for its authority before it goes on. */
  predicate Reauthorizes(place: Place) {
    place.Entered? || place.LedgerRead? || place.Historical? || place.SelectionFailed? || place.Selected?
    || place.InitDefault? || place.DefaultReady? || place.Pinned? || place.CheckAuthority?
    || place.FirstAuthority? || place.SecondAuthority?
  }

  /** The next write to a store is a step away. */
  predicate AboutToWrite(place: Place) {
    place.Intent? || place.Mark? || place.CommitBoard?
  }

  lemma RevokedStep(w: World, a: Attempt, o: Oracle)
    requires AttemptOk(w, a) && !a.authorized && Reauthorizes(a.place)
    ensures Step(w, a, o)
            == Leave(w, if a.op in w.ledger && w.ledger[a.op].state.Mutating? && !Preparing(a.place)
                        then Typed(Unknown, OutcomeUnknown) else Expired)
  {
    hide Made, MadeBy, MadeAs, MutateBoard;
  }

  /** In every run an attempt whose authority is gone stops at its next check of it, without writing
      anything: its outcome is unknown once its row is MUTATING, and not committed by it before. */
  lemma {:induction false} RevokedStopsAtItsCheck(events: seq<Event>, o: Oracle)
    requires var s := Run(Initial(), events); s.attempt.Some? && !s.attempt.value.authorized && Reauthorizes(s.attempt.value.place)
    ensures var s := Run(Initial(), events); var a := s.attempt.value;
            var mutating := a.op in s.world.ledger && s.world.ledger[a.op].state.Mutating? && !Preparing(a.place);
            Answered(s, Next(s, Advance(o)), a.op, a.no, s.world, if mutating then Typed(Unknown, OutcomeUnknown) else Expired)
  {
    var s := Run(Initial(), events);
    Reachable(events);
    InvGives(s);
    hide Run, Inv, CoreOk, AttemptOk, Step;
    RevokedStep(s.world, s.attempt.value, o);
  }

  /** In every run a revocation at such a place stops the attempt with its next step, and no store changes. */
  lemma {:induction false} RevocationStopsTheAttempt(events: seq<Event>, o: Oracle)
    requires var s := Run(Initial(), events); s.attempt.Some? && Reauthorizes(s.attempt.value.place)
    ensures var s := Run(Initial(), events); var a := s.attempt.value;
            var mutating := a.op in s.world.ledger && s.world.ledger[a.op].state.Mutating? && !Preparing(a.place);
            Answered(s, Run(Initial(), events + [Revoke, Advance(o)]), a.op, a.no, s.world,
                     if mutating then Typed(Unknown, OutcomeUnknown) else Expired)
  {
    hide Answered;
    var s := Run(Initial(), events);
    var revoked := events + [Revoke];
    assert revoked[..|events|] == events;
    var all := events + [Revoke, Advance(o)];
    assert all[..|all| - 1] == revoked && all[|all| - 1] == Advance(o);
    assert Run(Initial(), revoked) == Next(s, Revoke);
    assert Run(Initial(), all) == Next(Run(Initial(), revoked), Advance(o));
    hide Run;
    assert Next(s, Revoke) == s.(attempt := Some(s.attempt.value.(authorized := false))) by { hide Step; }
    hide Next;
    RevokedStopsAtItsCheck(revoked, o);
    SameAnswer(s, Next(s, Revoke), Run(Initial(), all));
  }

  /** Only the stores and the answers before count for an answer. */
  lemma SameAnswer(s: State, t: State, s': State)
    requires s.replies == t.replies
    ensures forall op, no, world, answer :: Answered(t, s', op, no, world, answer) ==> Answered(s, s', op, no, world, answer)
  {
  }

  /** What ends before the lock is entered is answered for what it is: unknown after a timeout, since another
      attempt holds the lock, and not committed when it was turned away.  A crash ends the attempt in the lock
      without an answer.  No store changes. */
  lemma EndsWithoutWriting(s: State, op: OpId)
    ensures var timeout, away, failed, crash := Next(s, LockTimeout(op)), Next(s, TurnedAway(op)), Next(s, LockFailed(op)), Next(s, Crash);
            && timeout.world == s.world && away.world == s.world && failed.world == s.world && crash.world == s.world
            && timeout.attempt == s.attempt && away.attempt == s.attempt && failed.attempt == s.attempt && crash.attempt.None?
            && timeout.replies == s.replies + [Reply(op, s.nextAttempt, Typed(Unknown, OutcomeUnknown), |s.world.created|)]
            && away.replies == s.replies + [Reply(op, s.nextAttempt, Expired, |s.world.created|)]
            && failed.replies == s.replies + [Reply(op, s.nextAttempt, Unreported, |s.world.created|)]
            && crash.replies == s.replies
            && timeout.nextAttempt == away.nextAttempt == failed.nextAttempt == s.nextAttempt + 1
  {
    hide Step;
  }

  /** The default board had no database and has a new one; no other file changes. */
  predicate MakesDefault(w: World, w': World, o: Oracle) {
    && DEFAULT_BOARD in w.boards && w.boards[DEFAULT_BOARD].path !in w.files
    && w'.files == w.files[w.boards[DEFAULT_BOARD].path := o.db]
  }

  predicate Gated(w: World, a: Attempt, o: Oracle, m: Move) {
    && (m.Go? && AboutToWrite(m.place) ==> a.authorized)
    && (m.world.files != w.files ==> a.authorized && a.place.InitDefault? && MakesDefault(w, m.world, o))
    && (m.world.ledger != w.ledger ==> a.place.Intent? || a.place.Mark? || a.place.Finalize?)
    && (m.world.tables != w.tables ==> a.place.CommitBoard?)
  }

  lemma PreparingIsGated(w: World, a: Attempt, o: Oracle)
    requires Preparing(a.place)
    ensures Gated(w, a, o, PrepareStep(w, a, o))
  {
  }

  lemma WorkingIsGated(w: World, a: Attempt, row: Row, o: Oracle)
    requires !Preparing(a.place)
    ensures Gated(w, a, o, WorkStep(w, a, row, o))
  {
    hide MutateBoard, GenerationMatches;
    MutateGoesOn(w, a, o);
    MutateWritesNothing(w, a, o);
  }

  lemma AuthorityStep(w: World, a: Attempt, o: Oracle)
    ensures Gated(w, a, o, Step(w, a, o))
  {
    if Preparing(a.place) { hide PrepareStep; PreparingIsGated(w, a, o); }
    else if a.locals.entry.Some? { hide WorkStep; WorkingIsGated(w, a, a.locals.entry.value, o); }
  }

  lemma MutateWritesNothing(w: World, a: Attempt, o: Oracle)
    ensures MutateBoard(w, a, o).world == w
  {
  }

  /** Every write of an attempt directly follows a check of its authority: the intent, the advance of the
      row and the board commit are one step behind it, and a default database is made together with it,
      and only where there is none. */
  lemma WritesFollowAuthority(s: State, o: Oracle)
    requires s.attempt.Some?
    ensures var s' := Next(s, Advance(o)); var a := s.attempt.value;
            && (s'.attempt.Some? && AboutToWrite(s'.attempt.value.place) ==> a.authorized)
            && (s'.world.files != s.world.files ==> a.authorized && a.place.InitDefault? && MakesDefault(s.world, s'.world, o))
            && (s'.world.ledger != s.world.ledger ==> a.place.Intent? || a.place.Mark? || a.place.Finalize?)
            && (s'.world.tables != s.world.tables ==> a.place.CommitBoard?)
  {
    hide Step;
    AuthorityStep(s.world, s.attempt.value, o);
  }

  // ---------------------------------------------------------------- failures of the stores

  /** The places before the row exists at which a store, the clock or `kanban_db` is used. */
  predicate Consults(place: Place) {
    place.Entered? || place.Selecting? || place.Selected? || place.InitDefault? || place.Pinning?
  }

  /** What an attempt answers when what it uses at this place fails. */
  function FailureAnswer(place: Place, row: RowState, cause: Cause): Answer {
    if Consults(place) then
      if cause.AccessDenied? then Expired else if cause.TimedOut? then Typed(Unknown, OutcomeUnknown) else Unreported
    else if place.Intent? || place.Mark? || place.Finalize? || place.Receipt? then Unreported
    else if place.CheckCurrent? && !row.Mutating? then Typed(NotCommitted, GenerationChanged)
    else Typed(Unknown, OutcomeUnknown)
  }

  /** The places at which an attempt only looks at what it already has. */
  predicate OnlyDecides(place: Place) {
    place.LedgerRead? || place.Historical? || place.SelectionFailed? || place.DefaultReady? || place.Pinned?
    || place.CheckAuthority? || place.FirstAuthority? || place.SecondAuthority?
  }

  /** An error is reported, and there is nothing to write that could have been done all the same. */
  predicate NotDone(place: Place, outcome: Outcome) {
    outcome.Fail? || (outcome.Lost? && !place.InitDefault? && !place.Finalize? && !AboutToWrite(place))
  }

  lemma FailedPreparing(w: World, a: Attempt, state: RowState, o: Oracle)
    requires Preparing(a.place) && !OnlyDecides(a.place) && a.authorized && NotDone(a.place, o.outcome)
    ensures PrepareStep(w, a, o) == Leave(w, FailureAnswer(a.place, state, o.cause))
  {
  }

  lemma FailedWorking(w: World, a: Attempt, row: Row, o: Oracle)
    requires !Preparing(a.place) && !OnlyDecides(a.place) && NotDone(a.place, o.outcome)
    ensures WorkStep(w, a, row, o) == Leave(w, FailureAnswer(a.place, row.state, o.cause))
  {
    if a.place.Mutate? { assert MutateBoard(w, a, o) == Leave(w, UNKNOWN_OUTCOME); }
    hide MutateBoard;
  }

  lemma FailedStep(w: World, a: Attempt, o: Oracle)
    requires AttemptOk(w, a) && a.authorized && !OnlyDecides(a.place) && NotDone(a.place, o.outcome)
    ensures Step(w, a, o)
            == Leave(w, FailureAnswer(a.place, if a.locals.entry.Some? then a.locals.entry.value.state else Prepared, o.cause))
  {
    hide WorkStep, PrepareStep, FailureAnswer, Made, MadeBy, MadeAs;
    if Preparing(a.place) { FailedPreparing(w, a, if a.locals.entry.Some? then a.locals.entry.value.state else Prepared, o); }
    else if a.locals.entry.Some? { FailedWorking(w, a, a.locals.entry.value, o); }
  }

  /** In every run a failure without effect ends the attempt where it stands and leaves every store as it
      is; before the row it is answered by its cause, a changed board is told unless the row is
      MUTATING, and from then on the outcome is unknown. */
  lemma {:induction false} FailureEndsAttempt(events: seq<Event>, o: Oracle)
    requires var s := Run(Initial(), events); s.attempt.Some? && s.attempt.value.authorized && !OnlyDecides(s.attempt.value.place)
    requires NotDone(Run(Initial(), events).attempt.value.place, o.outcome)
    ensures var s := Run(Initial(), events); var a := s.attempt.value;
            var state := if a.locals.entry.Some? then a.locals.entry.value.state else Prepared;
            Answered(s, Next(s, Advance(o)), a.op, a.no, s.world, FailureAnswer(a.place, state, o.cause))
  {
    var s := Run(Initial(), events);
    var a := s.attempt.value;
    Reachable(events);
    InvGives(s);
    hide Run, Inv, CoreOk, AttemptOk, Step, FailureAnswer;
    FailedStep(s.world, a, o);
  }

  /** A write that goes through although an error is reported has its whole effect, and the attempt ends:
      the default database or the row is there, the row has moved on, or the card is there, and nobody is
      told so. */
  lemma {:induction false} LostWriteIsWritten(events: seq<Event>, o: Oracle)
    requires var s := Run(Initial(), events); s.attempt.Some? && o.outcome.Lost?
    ensures var s := Run(Initial(), events); var a := s.attempt.value; var s' := Next(s, Advance(o)); var w := s.world;
            && (a.place.InitDefault? && a.authorized && DefaultMissing(w, o) ==>
                  && MakesDefault(w, s'.world, o)
                  && Answered(s, s', a.op, a.no, s'.world, FailureAnswer(InitDefault, Prepared, o.cause)))
            && (a.place.Intent? ==>
                  a.locals.generation.Some? && var id := a.locals.generation.value;
                  Answered(s, s', a.op, a.no, w.(ledger := w.ledger[a.op := Row(a.payload, id, Prepared, None)]), Unreported))
            && (a.place.Mark? ==>
                  a.op in w.ledger && Answered(s, s', a.op, a.no, w.(ledger := w.ledger[a.op := w.ledger[a.op].(state := Mutating)]), Unreported))
            && (a.place.CommitBoard? ==>
                  && s'.world.tables == w.tables[a.locals.txn.conn := a.locals.staged]
                  && Answered(s, s', a.op, a.no, s'.world, Typed(Unknown, OutcomeUnknown)))
            && (a.place.Finalize? ==>
                  a.op in w.ledger
                  && Answered(s, s', a.op, a.no,
                           w.(ledger := w.ledger[a.op := w.ledger[a.op].(state := Committed, task := Some(a.locals.task))]),
                           Unreported))
  {
    var s := Run(Initial(), events);
    var a := s.attempt.value;
    Reachable(events);
    InvGives(s);
    hide Run, Inv, CoreOk, Made, MadeAs, MadeBy, MutateBoard;
  }
}
