/** What the Kanban protocol promises over every run from an empty ledger. */
module KanbanSafety {
  import opened Options
  import opened KanbanProtocol
  import opened KanbanInvariant
  import opened KanbanRuns
  import opened KanbanTraces

  /** At most one card per operation is ever committed, and at most one lies on any board,
      wherever boards were deleted, recreated, moved or edited in between.  None is committed
      while the ledger has no row or a PREPARED row, and the attempt that committed one had itself
      moved the row from PREPARED to MUTATING under the lock it still held. */
  lemma {:induction false} AtMostOneCard(events: seq<Event>, op: OpId)
    ensures var w := Run(Initial(), events).world;
            && (forall i, j :: 0 <= i < |w.created| && 0 <= j < |w.created| && w.created[i].op == op && w.created[j].op == op
                               ==> i == j)
            && (forall d, e, t, u :: t in TableOf(w, d) && u in TableOf(w, e)
                                     && TableOf(w, d)[t].key == Some(op) && TableOf(w, e)[u].key == Some(op)
                                     ==> d == e && t == u)
            && ((op in w.ledger ==> w.ledger[op].state.Prepared?) ==> !Made(w.created, op))
            && (forall i :: 0 <= i < |w.created| ==> MadeInOneLock(events, w.created[i]))
  {
    var w := Run(Initial(), events).world;
    Reachable(events);
    hide Run, Next, MadeInOneLock;
    forall i | 0 <= i < |w.created| ensures MadeInOneLock(events, w.created[i]) { CreatorMovedItsRow(events, i); }
    if op in w.ledger ==> w.ledger[op].state.Prepared? { PreparedIsNotMade(w, op); }
    forall d, t | t in TableOf(w, d) && TableOf(w, d)[t].key == Some(op) ensures MadeIn(w.created, op, t, d) {
      assert TableOk(w.created, d, TableOf(w, d));
    }
  }

  /** A card is committed only in the very database pinned at PREPARED, by a transaction that
      saw the pinned generation and passed both authority checks; the pin is the ledger's. */
  lemma {:induction false} CommittedWherePinned(events: seq<Event>, i: nat)
    requires i < |Run(Initial(), events).world.created|
    ensures var w := Run(Initial(), events).world; var c := w.created[i];
            && c.txn == Txn(c.pinned.db, Some(c.pinned), 2)
            && c.op in w.ledger && w.ledger[c.op].identity == c.pinned && !w.ledger[c.op].state.Prepared?
  {
    Reachable(events);
    hide Run, Next;
    var w := Run(Initial(), events).world;
    assert CreationOk(w, w.created[i]);
  }

  /** How many cards a history holds for `op`. */
  function CardsFor(created: seq<Creation>, op: OpId): nat {
    if created == [] then 0
    else CardsFor(created[..|created| - 1], op) + if created[|created| - 1].op == op then 1 else 0
  }

  lemma {:induction false} CardsForCounts(created: seq<Creation>, op: OpId)
    requires forall i, j :: 0 <= i < j < |created| ==> created[i].op != created[j].op
    ensures CardsFor(created, op) == if Made(created, op) then 1 else 0
    decreases |created|
  {
    if created != [] {
      var n := |created| - 1;
      var before := created[..n];
      CardsForCounts(before, op);
      assert created == before + [created[n]];
      MadeGrows(before, created[n]);
      if Made(before, op) {
        var i :| 0 <= i < |before| && before[i].op == op;
        assert created[i].op != created[n].op;
      }
    }
  }

  /** What every answer reports is true: a typed `not_committed` means no card had been made for
      the operation when it was given, `committed` and `success` mean exactly one had, and the
      untyped `not_committed` means that this attempt never makes one in the whole run. */
  lemma CommitStatesAreTruthful(events: seq<Event>, i: nat)
    requires i < |Run(Initial(), events).replies|
    ensures var s := Run(Initial(), events); var r := s.replies[i]; var created := s.world.created;
            && r.at <= |created|
            && (r.answer.Typed? && r.answer.state.NotCommitted? ==> CardsFor(created[..r.at], r.op) == 0)
            && (r.answer.Typed? && r.answer.state.CommittedOnce? ==> CardsFor(created[..r.at], r.op) == 1)
            && (r.answer.Success? ==> CardsFor(created[..r.at], r.op) == 1)
            && (r.answer.Expired? ==> forall c :: c in created ==> c.attempt != r.attempt)
  {
    Reachable(events);
    hide Run, Next;
    var s := Run(Initial(), events);
    var r := s.replies[i];
    assert Truthful(s.world.created, r);
    var before := s.world.created[..r.at];
    CardsForCounts(before, r.op);
    if r.answer.Success? {
      var k :| 0 <= k < |before| && before[k].op == r.op && before[k].task == r.answer.task;
      assert Made(before, r.op);
    }
  }

  /** All success receipts of an operation agree, and at most one says `acknowledged`. */
  lemma ReceiptsAgree(events: seq<Event>, i: nat, j: nat)
    requires var replies := Run(Initial(), events).replies;
             && i < |replies| && j < |replies| && replies[i].op == replies[j].op
             && replies[i].answer.Success? && replies[j].answer.Success?
    ensures var replies := Run(Initial(), events).replies;
            && replies[i].answer.task == replies[j].answer.task
            && replies[i].answer.board == replies[j].answer.board
            && (replies[i].answer.acknowledged && replies[j].answer.acknowledged ==> i == j)
  {
    Reachable(events);
    hide Run, Next;
    var s := Run(Initial(), events);
    var p := MakerOf(s, i);
    var q := MakerOf(s, j);
    assert p == q;
  }

  /** The one commit behind a success receipt. */
  ghost function MakerOf(s: State, i: nat): (k: nat)
    requires Inv(s) && i < |s.replies| && s.replies[i].answer.Success?
    ensures k < |s.world.created| && s.world.created[k].op == s.replies[i].op
    ensures s.world.created[k].task == s.replies[i].answer.task
    ensures s.world.created[k].pinned.slug == s.replies[i].answer.board
    ensures s.replies[i].answer.acknowledged ==> s.world.created[k].attempt == s.replies[i].attempt
  {
    var r := s.replies[i];
    var created := s.world.created;
    assert Truthful(created, r);
    var k: nat :| k < r.at && created[k].op == r.op && created[k].task == r.answer.task
                  && created[k].pinned.slug == r.answer.board && (r.answer.acknowledged ==> created[k].attempt == r.attempt);
    k
  }

  // ---------------------------------------------------------------- how a row may change

  lemma NextRowAdvances(s: State, e: Event, op: OpId)
    requires op in s.world.ledger
    ensures op in Next(s, e).world.ledger && RowAdvances(s.world.ledger[op], Next(s, e).world.ledger[op])
  {
    hide Step;
    if e.Advance? && s.attempt.Some? { StepWrites(s.world, s.attempt.value, e.oracle); }
  }

  /** Over every run a row keeps its payload and pinned board and never goes back; once it is
      COMMITTED it never changes again. */
  lemma {:induction false} RowsOnlyAdvance(s: State, events: seq<Event>, op: OpId)
    requires op in s.world.ledger
    ensures op in Run(s, events).world.ledger && RowAdvances(s.world.ledger[op], Run(s, events).world.ledger[op])
    decreases |events|
  {
    hide Next;
    if events != [] {
      RowsOnlyAdvance(s, events[..|events| - 1], op);
      NextRowAdvances(Run(s, events[..|events| - 1]), events[|events| - 1], op);
    }
  }

  // ---------------------------------------------------------------- what can no longer happen

  /** The row says MUTATING, no card was made, and nobody in the lock may make one. */
  ghost predicate Stranded(s: State, op: OpId) {
    && op in s.world.ledger && s.world.ledger[op].state.Mutating? && !Made(s.world.created, op)
    && (s.attempt.Some? && s.attempt.value.op == op ==> !s.attempt.value.locals.mayCreate)
  }

  /** The attempt of a stranded operation has nothing staged and sees no PREPARED row. */
  lemma StrandedAttempt(w: World, a: Attempt)
    requires CoreOk(w) && AttemptOk(w, a) && !Made(w.created, a.op) && !a.locals.mayCreate
    requires a.op in w.ledger && w.ledger[a.op].state.Mutating?
    ensures a.place.CheckAuthority? ==> a.locals.entry == Some(w.ledger[a.op])
    ensures !a.place.CommitBoard?
  {
    KeyedIsMade(w, a.locals.txn.conn, a.locals.task);
    hide CoreOk, Made, MadeBy;
  }

  lemma KeyedIsMade(w: World, db: DbId, t: TaskId)
    requires CoreOk(w)
    ensures t in TableOf(w, db) && TableOf(w, db)[t].key.Some? ==> Made(w.created, TableOf(w, db)[t].key.value)
  {
    assert TableOk(w.created, db, TableOf(w, db));
  }

  lemma StrandedStays(s: State, e: Event, op: OpId)
    requires Inv(s) && Stranded(s, op)
    ensures Stranded(Next(s, e), op)
  {
    StrandedHistory(s, e, op);
    StrandedRow(s, e, op);
    hide Inv, Step, Made;
    if e.Advance? && s.attempt.Some? && s.attempt.value.op == op {
      InvGives(s);
      StrandedAttempt(s.world, s.attempt.value);
      StepWrites(s.world, s.attempt.value, e.oracle);
      hide CoreOk, AttemptOk, WritesLedger, WritesHistory;
    }
  }

  lemma StrandedHistory(s: State, e: Event, op: OpId)
    requires Inv(s) && Stranded(s, op)
    ensures !Made(Next(s, e).world.created, op)
  {
    var s' := Next(s, e);
    hide Step;
    if e.Advance? && s.attempt.Some? {
      InvGives(s);
      StepWrites(s.world, s.attempt.value, e.oracle);
      hide Inv, CoreOk, AttemptOk, WritesLedger, KeepsRights;
      if s.attempt.value.op == op { StrandedAttempt(s.world, s.attempt.value); }
      if s'.world.created != s.world.created { MadeGrows(s.world.created, s'.world.created[|s.world.created|]); }
    }
  }

  lemma StrandedRow(s: State, e: Event, op: OpId)
    requires Inv(s) && Stranded(s, op)
    ensures op in Next(s, e).world.ledger && Next(s, e).world.ledger[op].state.Mutating?
  {
    NextRowAdvances(s, e, op);
    NextKeeps(s, e);
    StrandedHistory(s, e, op);
    InvGives(Next(s, e));
    hide Inv, Next;
    var w' := Next(s, e).world;
    assert RowOk(w', op);
  }

  /** MUTATING with no card and nobody entitled to make one: it stays that way in every run, so no
      later attempt, crash, retry or board change ever makes a card for the operation. */
  lemma {:induction false} StrandedForever(s: State, events: seq<Event>, op: OpId)
    requires Inv(s) && Stranded(s, op)
    ensures Stranded(Run(s, events), op)
    decreases |events|
  {
    hide Next, Inv, Stranded;
    if events != [] {
      var n := |events| - 1;
      RunKeeps(s, events[..n]);
      StrandedForever(s, events[..n], op);
      StrandedStays(Run(s, events[..n]), events[n], op);
    }
  }

  /** Attempt `no` has made nothing, and if it is in the lock its authority is gone. */
  ghost predicate Powerless(s: State, no: nat) {
    && no < s.nextAttempt && !MadeBy(s.world.created, no)
    && (s.attempt.Some? && s.attempt.value.no == no ==> !s.attempt.value.authorized && !s.attempt.value.place.CommitBoard?)
  }

  lemma PowerlessStays(s: State, e: Event, no: nat)
    requires Powerless(s, no)
    ensures Powerless(Next(s, e), no)
  {
    hide Step;
    var s' := Next(s, e);
    if e.Advance? && s.attempt.Some? {
      StepWrites(s.world, s.attempt.value, e.oracle);
      if s'.world.created != s.world.created { MadeGrows(s.world.created, s'.world.created[|s.world.created|]); }
    }
  }

  /** Once the turn of an attempt is revoked before its transaction passed the second authority
      check, that attempt never makes a card, whatever happens next. */
  lemma {:induction false} RevokedMakesNothing(s: State, events: seq<Event>, no: nat)
    requires Powerless(s, no)
    ensures Powerless(Run(s, events), no)
    decreases |events|
  {
    hide Next, Powerless;
    if events != [] {
      RevokedMakesNothing(s, events[..|events| - 1], no);
      PowerlessStays(Run(s, events[..|events| - 1]), events[|events| - 1], no);
    }
  }
}
