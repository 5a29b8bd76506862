/** The Kanban invariant over whole runs: every event keeps it. */
module KanbanRuns {
  import opened Options
  import opened KanbanProtocol
  import opened KanbanInvariant

  /** What an answer claims, judged against all cards ever committed. */
  ghost predicate Truthful(created: seq<Creation>, r: Reply) {
    r.at <= |created| &&
    match r.answer
    case Success(acknowledged, task, board) =>
      MadeAs(created[..r.at], r.op, task, board, if acknowledged then Some(r.attempt) else None)
    case Typed(NotCommitted, _) => !Made(created[..r.at], r.op)
    case Typed(CommittedOnce, _) => Made(created[..r.at], r.op)
    case Typed(Unknown, _) => true
    case Expired => !MadeBy(created, r.attempt)
    case Unreported => true
  }

  ghost predicate RepliesOk(created: seq<Creation>, replies: seq<Reply>, nextAttempt: nat) {
    && (forall i :: 0 <= i < |replies| ==> replies[i].attempt < nextAttempt && Truthful(created, replies[i]))
    && (forall i, j :: 0 <= i < j < |replies| ==> replies[i].attempt != replies[j].attempt)
  }

  predicate Numbered(created: seq<Creation>, nextAttempt: nat) {
    forall i :: 0 <= i < |created| ==> created[i].attempt < nextAttempt
  }

  predicate Unanswered(replies: seq<Reply>, no: nat) {
    forall i :: 0 <= i < |replies| ==> replies[i].attempt != no
  }

  ghost predicate Inv(s: State) {
    && CoreOk(s.world)
    && Numbered(s.world.created, s.nextAttempt)
    && RepliesOk(s.world.created, s.replies, s.nextAttempt)
    && (s.attempt.Some? ==>
          s.attempt.value.no < s.nextAttempt && Unanswered(s.replies, s.attempt.value.no)
          && AttemptOk(s.world, s.attempt.value))
  }

  // ---------------------------------------------------------------- what a step writes

  /** A row only moves forward and keeps its payload and pin; a COMMITTED row never changes. */
  predicate RowAdvances(before: Row, after: Row) {
    && after.payload == before.payload && after.identity == before.identity
    && (before.state.Committed? ==> after == before)
    && (before.state.Mutating? ==> !after.state.Prepared?)
  }

  /** The ledger is left alone, or one row moves forward: the attempt's own. */
  predicate WritesLedger(w: World, w': World, a: Attempt) {
    w'.ledger == w.ledger
    || (a.op in w'.ledger && w'.ledger == w.ledger[a.op := w'.ledger[a.op]]
        && (a.op in w.ledger ==> RowAdvances(w.ledger[a.op], w'.ledger[a.op])))
  }

  /** No card is committed, or one is: staged as new by this attempt and now being committed. */
  predicate WritesHistory(w: World, w': World, a: Attempt) {
    w'.created == w.created
    || (a.place.CommitBoard? && a.locals.createdNow && |w'.created| == |w.created| + 1
        && w'.created == w.created + [w'.created[|w.created|]]
        && w'.created[|w.created|].op == a.op && w'.created[|w.created|].attempt == a.no)
  }

  /** Only `CheckAuthority` decides whether an attempt may create, by the row's state, and only
      an authorized attempt reaches the commit. */
  predicate KeepsRights(a: Attempt, m: Move) {
    m.Go? ==>
      && (m.place.CommitBoard? ==> a.authorized)
      && (m.locals.mayCreate == a.locals.mayCreate
          || (a.place.CheckAuthority? && a.locals.entry.Some?
              && m.locals.mayCreate == (a.locals.entry.value.state.Prepared?)))
  }

  predicate Writes(w: World, a: Attempt, m: Move) {
    WritesLedger(w, m.world, a) && WritesHistory(w, m.world, a) && KeepsRights(a, m)
  }

  lemma PrepareWrites(w: World, a: Attempt, o: Oracle)
    requires Preparing(a.place)
    ensures Writes(w, a, PrepareStep(w, a, o))
  {
  }

  lemma MutateWrites(w: World, a: Attempt, o: Oracle)
    ensures Writes(w, a, MutateBoard(w, a, o))
  {
  }

  lemma WorkWrites(w: World, a: Attempt, row: Row, o: Oracle)
    requires !Preparing(a.place) && !a.place.Mutate? && !a.place.CommitBoard? && a.locals.entry == Some(row)
    ensures Writes(w, a, WorkStep(w, a, row, o))
  {
    var m := WorkStep(w, a, row, o);
    if !a.place.Mark? && !a.place.Finalize? { assert m.world == w; }
  }

  lemma CommitWrites(w: World, a: Attempt, row: Row, o: Oracle)
    requires a.place.CommitBoard?
    ensures Writes(w, a, CommitTransaction(w, a, row, o))
  {
  }

  lemma StepWrites(w: World, a: Attempt, o: Oracle)
    ensures Writes(w, a, Step(w, a, o))
  {
    if Preparing(a.place) { PrepareWrites(w, a, o); }
    else if a.locals.entry.Some? {
      var row := a.locals.entry.value;
      if a.place.Mutate? { MutateWrites(w, a, o); hide Writes, MutateBoard; }
      else if a.place.CommitBoard? { CommitWrites(w, a, row, o); hide Writes, CommitTransaction; }
      else { WorkWrites(w, a, row, o); hide Writes, WorkStep; }
    }
  }

  // ---------------------------------------------------------------- one move of the attempt

  lemma RepliesSurvive(w: World, w': World, a: Attempt, replies: seq<Reply>, n: nat)
    requires RepliesOk(w.created, replies, n) && WritesHistory(w, w', a) && Unanswered(replies, a.no)
    ensures RepliesOk(w'.created, replies, n)
  {
    if w'.created != w.created {
      var c := w'.created[|w.created|];
      MadeGrows(w.created, c);
      forall i | 0 <= i < |replies| ensures Truthful(w'.created, replies[i]) {
        assert Truthful(w.created, replies[i]);
        assert (w.created + [c])[..replies[i].at] == w.created[..replies[i].at];
      }
    }
  }

  lemma ReplyAdds(created: seq<Creation>, replies: seq<Reply>, n: nat, r: Reply)
    requires RepliesOk(created, replies, n) && r.attempt < n && Unanswered(replies, r.attempt) && Truthful(created, r)
    ensures RepliesOk(created, replies + [r], n)
  {
  }

  lemma ApplyKeeps(s: State, a: Attempt, m: Move)
    requires Inv(s) && s.attempt == Some(a) && MoveOk(a, m) && WritesHistory(s.world, m.world, a)
    ensures Inv(Apply(s, a, m))
  {
    RepliesSurvive(s.world, m.world, a, s.replies, s.nextAttempt);
    assert Numbered(m.world.created, s.nextAttempt);
    hide CoreOk, PrepareOk, WorkOk;
    if m.Leave? {
      var r := Reply(a.op, a.no, m.answer, |m.world.created|);
      assert m.world.created[..|m.world.created|] == m.world.created;
      assert Truthful(m.world.created, r);
      ReplyAdds(m.world.created, s.replies, s.nextAttempt, r);
      hide RepliesOk;
    }
  }

  lemma AdvanceKeeps(s: State, a: Attempt, o: Oracle)
    requires Inv(s) && s.attempt == Some(a)
    ensures Inv(Apply(s, a, Step(s.world, a, o)))
  {
    StepKeeps(s.world, a, o);
    StepWrites(s.world, a, o);
    ApplyKeeps(s, a, Step(s.world, a, o));
    hide *;
  }

  // ---------------------------------------------------------------- the other events

  lemma EnterKeeps(s: State, op: OpId, payload: Payload)
    requires Inv(s) && s.attempt.None?
    ensures Inv(Next(s, Enter(op, payload)))
  {
    hide CoreOk, Truthful;
  }

  lemma OutsideKeeps(s: State, op: OpId, answer: Answer)
    requires Inv(s) && (answer == UNKNOWN_OUTCOME || answer == Expired || answer == Unreported)
    ensures Inv(AnswerOutside(s, op, answer))
  {
    var r := Reply(op, s.nextAttempt, answer, |s.world.created|);
    assert Truthful(s.world.created, r);
    ReplyAdds(s.world.created, s.replies, s.nextAttempt + 1, r);
    hide CoreOk, AttemptOk, RepliesOk;
  }

  /** What an attempt relies on does not mention its authority. */
  lemma RevokeKeeps(w: World, a: Attempt)
    requires AttemptOk(w, a)
    ensures AttemptOk(w, a.(authorized := false))
  {
    hide Made, MadeBy, MadeAs;
  }

  lemma FilesKeepAttempt(w: World, w': World, a: Attempt)
    requires AttemptOk(w, a) && w.used <= w'.used
    requires w' == w.(files := w'.files, used := w'.used, boards := w'.boards)
    requires a.place.CheckOpened? && Holds(w, a) ==>
               var pinned := a.locals.entry.value.identity;
               !Installed(w, pinned) ==> !Installed(w', pinned)
    ensures AttemptOk(w', a)
  {
    hide Made, MadeBy, MadeAs;
    assert TableOf(w, a.locals.txn.conn) == TableOf(w', a.locals.txn.conn);
  }

  /** A file that is installed has not been there before, so the pinned one cannot return. */
  lemma FileChangeKeeps(w: World, a: Attempt, busy: Option<DbId>, c: Change)
    requires CoreOk(w) && !c.PutCard? && !c.DeleteCard?
    ensures CoreOk(Changed(w, busy, c)) && (AttemptOk(w, a) ==> AttemptOk(Changed(w, busy, c), a))
  {
    var w' := Changed(w, busy, c);
    FilesKeepCore(w, w');
    if AttemptOk(w, a) {
      assert Holds(w, a) ==> RowOk(w, a.op);
      FilesKeepAttempt(w, w', a);
    }
    hide CoreOk, AttemptOk;
  }

  lemma TableChangeKeeps(w: World, a: Attempt, db: DbId, table: Table)
    requires AttemptOk(w, a) && Busy(Some(a)) != Some(db)
    ensures AttemptOk(w.(tables := w.tables[db := table]), a)
  {
    hide Made, MadeBy, MadeAs;
    var w' := w.(tables := w.tables[db := table]);
    assert InTransaction(a.place) ==> TableOf(w, a.locals.txn.conn) == TableOf(w', a.locals.txn.conn);
  }

  lemma CardChangeKeeps(w: World, attempt: Option<Attempt>, c: Change)
    requires CoreOk(w) && (c.PutCard? || c.DeleteCard?) && (attempt.Some? ==> AttemptOk(w, attempt.value))
    ensures CoreOk(Changed(w, Busy(attempt), c))
    ensures attempt.Some? ==> AttemptOk(Changed(w, Busy(attempt), c), attempt.value)
  {
    var table: Table := TableOf(w, c.db);
    var changed: Table := if c.PutCard? then table[c.task := c.card] else table - {c.task};
    assert TableOk(w.created, c.db, table);
    hide CoreOk, AttemptOk;
    if Changed(w, Busy(attempt), c) != w {
      assert TableOk(w.created, c.db, changed);
      TableWriteKeepsCore(w, c.db, changed);
      if attempt.Some? { TableChangeKeeps(w, attempt.value, c.db, changed); }
    }
  }

  lemma ChangeKeeps(s: State, c: Change)
    requires Inv(s)
    ensures Inv(Next(s, Outside(c)))
  {
    var w' := Changed(s.world, Busy(s.attempt), c);
    assert w'.created == s.world.created;
    hide RepliesOk, Numbered, Unanswered;
    if c.PutCard? || c.DeleteCard? { CardChangeKeeps(s.world, s.attempt, c); }
    else { FileChangeKeeps(s.world, if s.attempt.Some? then s.attempt.value else Fresh(0, "", Payload("", None, "")),
                           Busy(s.attempt), c); }
    hide CoreOk, AttemptOk, Changed;
  }

  lemma NextKeeps(s: State, e: Event)
    requires Inv(s)
    ensures Inv(Next(s, e))
  {
    match e
    case Enter(op, payload) => if s.attempt.None? { EnterKeeps(s, op, payload); }
    case LockTimeout(op) => OutsideKeeps(s, op, UNKNOWN_OUTCOME);
    case TurnedAway(op) => OutsideKeeps(s, op, Expired);
    case LockFailed(op) => OutsideKeeps(s, op, Unreported);
    case Advance(o) => if s.attempt.Some? { AdvanceKeeps(s, s.attempt.value, o); }
    case Revoke => if s.attempt.Some? { RevokeKeeps(s.world, s.attempt.value); hide AttemptOk, CoreOk; }
    case Crash =>
    case Outside(c) => ChangeKeeps(s, c);
  }

  lemma InitialOk()
    ensures Inv(Initial())
  {
  }

  lemma InvGives(s: State)
    requires Inv(s)
    ensures CoreOk(s.world) && (s.attempt.Some? ==> AttemptOk(s.world, s.attempt.value))
  {
  }

  lemma {:induction false} RunKeeps(s: State, events: seq<Event>)
    requires Inv(s)
    ensures Inv(Run(s, events))
    decreases |events|
  {
    hide Inv, Next;
    if events != [] {
      RunKeeps(s, events[..|events| - 1]);
      NextKeeps(Run(s, events[..|events| - 1]), events[|events| - 1]);
    }
  }

  lemma Reachable(events: seq<Event>)
    ensures Inv(Run(Initial(), events))
  {
    InitialOk();
    RunKeeps(Initial(), events);
  }
}
