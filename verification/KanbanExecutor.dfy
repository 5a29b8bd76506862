/**
 The create operation of tools.py working on its stores: the ledger rows, the board metadata, the
 database files and their tables are changed in place, one write at a time, and every piece of the
 operation between two places where it can be overtaken does what the machine of `KanbanProtocol` does.
 */
module KanbanExecutor {
  import opened Options
  import opened KanbanProtocol
  import opened KanbanSafety

  /** Where a piece of the operation ends: it goes on from the next place, or it answers. */
  datatype Piece = On(place: Place, locals: Locals) | Done(answer: Answer)

  function MoveOf(w: World, p: Piece): Move {
    match p
    case On(place, locals) => Go(w, place, locals)
    case Done(answer) => Leave(w, answer)
  }

  class Stores {
    var ledger: map<OpId, Row>
    var boards: map<Slug, Board>
    var files: map<DbPath, DbId>
    var tables: map<DbId, Table>
    /** Known to the file system only: no piece of the operation reads it. */
    var used: set<(DbPath, DbId)>
    ghost var created: seq<Creation>

    constructor ()
      ensures View() == Initial().world
    {
      ledger, boards, files, tables := map[], map[], map[], map[];
      used, created := {}, [];
    }

    ghost function View(): World
      reads this
    {
      World(ledger, boards, files, used, tables, created)
    }

    /** `_read_kanban_ledger_entry`. */
    method ReadEntry(op: OpId) returns (entry: Option<Row>)
      ensures entry == EntryOf(View(), op)
    {
      entry := if op in ledger then Some(ledger[op]) else None;
    }

    /** `_kanban_board_generation`. */
    method Generation(slug: Slug) returns (identity: Option<Identity>)
      ensures identity == GenerationOf(View(), slug)
    {
      if slug !in boards || boards[slug].archived || boards[slug].path !in files { return None; }
      var b := boards[slug];
      identity := Some(Identity(slug, b.path, files[b.path], b.dir, b.meta, b.createdAt));
    }

    /** Whether the pinned generation is still the current one; an error counts as no. */
    method IsCurrent(identity: Identity, o: Oracle) returns (current: bool)
      ensures current == GenerationMatches(View(), identity, o)
    {
      if !o.outcome.Ok? { return false; }
      var now := Generation(identity.slug);
      current := now == Some(identity);
    }

    /** `_insert_kanban_intent`: the row is inserted only if the operation has none. */
    method Insert(a: Attempt, o: Oracle) returns (p: Piece)
      modifies this`ledger
      ensures MoveOf(View(), p) == InsertIntent(old(View()), a, o)
    {
      if o.outcome.Fail? || a.op in ledger || a.locals.generation.None? { return Done(Unreported); }
      var row := Row(a.payload, a.locals.generation.value, Prepared, None);
      ledger := ledger[a.op := row];
      p := if o.outcome.Lost? then Done(Unreported) else On(CheckCurrent, a.locals.(entry := Some(row)));
    }

    /** `_mark_kanban_mutating`: exactly one PREPARED row is advanced, or none and an error. */
    method Mark(a: Attempt, o: Oracle) returns (p: Piece)
      modifies this`ledger
      ensures MoveOf(View(), p) == MarkMutating(old(View()), a, o)
    {
      if o.outcome.Fail? || a.op !in ledger || !ledger[a.op].state.Prepared? { return Done(Unreported); }
      var row := ledger[a.op].(state := Mutating);
      ledger := ledger[a.op := row];
      p := if o.outcome.Lost? then Done(Unreported) else On(Open, a.locals.(entry := Some(row)));
    }

    /** `_finalize_kanban_ledger`: exactly one MUTATING row is committed, or none and an error. */
    method Finalize(a: Attempt, o: Oracle) returns (p: Piece)
      modifies this`ledger
      ensures MoveOf(View(), p) == FinalizeLedger(old(View()), a, o)
    {
      if o.outcome.Fail? || a.op !in ledger || !ledger[a.op].state.Mutating? { return Done(Unreported); }
      ledger := ledger[a.op := ledger[a.op].(state := Committed, task := Some(a.locals.task))];
      p := if o.outcome.Lost? then Done(Unreported) else On(Receipt, a.locals);
    }

    /** `_initialize_fresh_default_kanban_board`, between its two authority checks; `isNew` says that the
        file system did not hand out an identity that was at this path before. */
    method InitDefaultBoard(a: Attempt, o: Oracle, isNew: bool) returns (p: Piece)
      requires isNew <==> !(DEFAULT_BOARD in boards && (boards[DEFAULT_BOARD].path, o.db) in used)
      modifies this`files, this`used
      ensures MoveOf(View(), p) == MakeDefault(old(View()), a, o)
    {
      if !a.authorized { return Done(Expired); }
      if DEFAULT_BOARD in boards && !o.outcome.Fail? && boards[DEFAULT_BOARD].path !in files && isNew {
        used := used + {(boards[DEFAULT_BOARD].path, o.db)};
        files := files[boards[DEFAULT_BOARD].path := o.db];
      }
      p := if o.outcome.Ok? then On(DefaultReady, a.locals) else Done(Failed(o.cause));
    }

    /** The first half of the operation, from the lock to the PREPARED row. */
    method Prepare(a: Attempt, o: Oracle, isNew: bool) returns (p: Piece)
      requires isNew <==> !(DEFAULT_BOARD in boards && (boards[DEFAULT_BOARD].path, o.db) in used)
      requires Preparing(a.place)
      modifies this`ledger, this`files, this`used
      ensures MoveOf(View(), p) == PrepareStep(old(View()), a, o)
    {
      hide MakeDefault, InsertIntent;
      var l := a.locals;
      match a.place
      case Entered =>
        if !a.authorized { return Done(Expired); }
        if !o.outcome.Ok? { return Done(Failed(o.cause)); }
        var entry := ReadEntry(a.op);
        p := On(LedgerRead, l.(entry := entry));
      case LedgerRead =>
        if !a.authorized { return Done(Expired); }
        if l.entry.None? { return On(Selecting, l); }
        var row := l.entry.value;
        if row.payload != a.payload { return Done(ConflictAnswer(row.state)); }
        p := if row.state.Committed? then On(Historical, l) else On(CheckCurrent, l);
      case Historical =>
        if !a.authorized { return Done(Expired); }
        if l.entry.None? || l.entry.value.task.None? { return Done(Unreported); }
        p := Done(Success(false, l.entry.value.task.value, l.entry.value.identity.slug));
      case Selecting =>
        if !o.outcome.Ok? { return Done(Failed(o.cause)); }
        match o.choice {
          case Chosen(slug) => p := On(Selected, l.(board := slug));
          case NotFound => p := On(SelectionFailed, l.(code := BoardNotFound));
          case Ambiguous => p := On(SelectionFailed, l.(code := BoardAmbiguous));
        }
      case SelectionFailed =>
        p := Done(if a.authorized then Typed(NotCommitted, l.code) else Expired);
      case Selected =>
        if !a.authorized { return Done(Expired); }
        if !o.outcome.Ok? { return Done(Failed(o.cause)); }
        var missing := l.board == DEFAULT_BOARD && l.board in boards && boards[l.board].path !in files;
        p := On(if missing then InitDefault else Pinning, l);
      case InitDefault => p := InitDefaultBoard(a, o, isNew);
      case DefaultReady => p := if a.authorized then On(Pinning, l) else Done(Expired);
      case Pinning =>
        if !o.outcome.Ok? { return Done(Failed(o.cause)); }
        var generation := Generation(l.board);
        p := if generation.Some? then On(Pinned, l.(generation := generation)) else Done(Unreported);
      case Pinned => p := if a.authorized then On(Intent, l) else Done(Expired);
      case Intent => p := Insert(a, o);
    }

    /** The cards that carry the key of `op` (`SELECT id ... WHERE idempotency_key = ?`). */
    method CardsOf(db: DbId, op: OpId) returns (found: set<TaskId>)
      ensures found == Keyed(TableOf(View(), db), op)
    {
      var table := if db in tables then tables[db] else map[];
      found := set t | t in table && table[t].key == Some(op);
    }

    /** Inside the board transaction: find the one card of the operation or stage a new one. */
    method Mutate(a: Attempt, o: Oracle) returns (p: Piece)
      ensures MoveOf(View(), p) == MutateBoard(View(), a, o)
    {
      if !o.outcome.Ok? { return Done(UNKNOWN_OUTCOME); }
      var l := a.locals;
      var table := if l.txn.conn in tables then tables[l.txn.conn] else map[];
      var found := CardsOf(l.txn.conn, a.op);
      if |found| > 1 { return Done(UNKNOWN_OUTCOME); }
      if found != {} {
        var task: TaskId :| task in found;
        OnlyOne(found, task, Pick(found));
        if !VerifiedParked(table[task], a.op, a.payload) { return Done(UNKNOWN_OUTCOME); }
        p := On(SecondAuthority, l.(task := task, createdNow := false, staged := table));
      } else if l.mayCreate && o.task !in table {
        var card := o.card.(key := Some(a.op), sticky := true);
        if !VerifiedParked(card, a.op, a.payload) { return Done(UNKNOWN_OUTCOME); }
        p := On(SecondAuthority, l.(task := o.task, createdNow := true, staged := table[o.task := card]));
      } else {
        p := Done(UNKNOWN_OUTCOME);
      }
    }

    /** The commit of the board transaction: the staged table becomes the table. */
    method Commit(a: Attempt, row: Row, o: Oracle) returns (p: Piece)
      modifies this`tables, this`created
      ensures MoveOf(View(), p) == CommitTransaction(old(View()), a, row, o)
    {
      if o.outcome.Fail? { return Done(UNKNOWN_OUTCOME); }
      var l := a.locals;
      tables := tables[l.txn.conn := l.staged];
      if l.createdNow {
        created := created + [Creation(a.op, a.no, l.task, row.identity, l.txn)];
      }
      p := if o.outcome.Lost? then Done(UNKNOWN_OUTCOME) else On(CheckPost, l);
    }

    /** The second half of the operation, from the row to the receipt. */
    method Work(a: Attempt, row: Row, o: Oracle) returns (p: Piece)
      requires !Preparing(a.place)
      modifies this`ledger, this`tables, this`created
      ensures MoveOf(View(), p) == WorkStep(old(View()), a, row, o)
    {
      hide MutateBoard, CommitTransaction, MarkMutating, FinalizeLedger, GenerationOf;
      var l := a.locals;
      var unknown := Done(UNKNOWN_OUTCOME);
      match a.place
      case CheckCurrent =>
        var current := IsCurrent(row.identity, o);
        p := if current then On(CheckAuthority, l)
             else if row.state.Mutating? then unknown else Done(Typed(NotCommitted, GenerationChanged));
      case CheckAuthority =>
        if !a.authorized { return if row.state.Mutating? then unknown else Done(Expired); }
        p := On(if row.state.Prepared? then Place.Mark else Open, l.(mayCreate := row.state.Prepared?));
      case Mark => p := Mark(a, o);
      case Open =>
        if !o.outcome.Ok? || row.identity.path !in files { return unknown; }
        p := On(CheckOpened, l.(txn := Txn(files[row.identity.path], None, 0)));
      case CheckOpened =>
        var current := IsCurrent(row.identity, o);
        p := if current then On(Begin, l) else unknown;
      case Begin => p := if o.outcome.Ok? then On(CheckLocked, l) else unknown;
      case CheckLocked =>
        var current := IsCurrent(row.identity, o);
        var seen := Generation(row.identity.slug);
        p := if current then On(FirstAuthority, l.(txn := l.txn.(generationSeen := seen))) else unknown;
      case FirstAuthority =>
        p := if a.authorized then On(Place.Mutate, l.(txn := l.txn.(authorityPasses := l.txn.authorityPasses + 1))) else unknown;
      case Mutate => p := Mutate(a, o);
      case SecondAuthority =>
        p := if a.authorized then On(CommitBoard, l.(txn := l.txn.(authorityPasses := l.txn.authorityPasses + 1))) else unknown;
      case CommitBoard => p := Commit(a, row, o);
      case CheckPost =>
        var current := IsCurrent(row.identity, o);
        p := if current then On(Place.Finalize, l) else unknown;
      case Finalize => p := Finalize(a, o);
      case Receipt =>
        var entry := ReadEntry(a.op);
        if !o.outcome.Ok? || entry.None? || !entry.value.state.Committed? || entry.value.task.None? { return Done(Unreported); }
        p := Done(Success(l.createdNow, entry.value.task.value, entry.value.identity.slug));
    }

    /** Any piece of the operation does exactly what the machine's step does. */
    method Advance(a: Attempt, o: Oracle, isNew: bool) returns (p: Piece)
      requires isNew <==> !(DEFAULT_BOARD in boards && (boards[DEFAULT_BOARD].path, o.db) in used)
      modifies this
      ensures MoveOf(View(), p) == Step(old(View()), a, o)
    {
      hide PrepareStep, WorkStep;
      if Preparing(a.place) {
        p := Prepare(a, o, isNew);
      } else if a.locals.entry.Some? {
        p := Work(a, a.locals.entry.value, o);
      } else {
        p := Done(Unreported);
      }
    }

    // -------------------------------------------------------------- whole runs

    /** What others do to the stores; a change that is not possible does not happen. */
    method Change(change: Change, busy: Option<DbId>)
      modifies this`boards, this`files, this`used, this`tables
      ensures View() == Changed(old(View()), busy, change)
    {
      match change
      case PutBoard(slug, board) => boards := boards[slug := board];
      case DropBoard(slug) => boards := boards - {slug};
      case InstallFile(path, db) =>
        if (path, db) !in used { files, used := files[path := db], used + {(path, db)}; }
      case RemoveFile(path) => files := files - {path};
      case PutCard(db, task, card) =>
        var table := if db in tables then tables[db] else map[];
        var key := if task in table then table[task].key else None;
        if busy != Some(db) && card.key == key { tables := tables[db := table[task := card]]; }
      case DeleteCard(db, task) =>
        var table := if db in tables then tables[db] else map[];
        if busy != Some(db) { tables := tables[db := table - {task}]; }
    }

    /** The attempt in the lock makes its next move; `answer` is set when it ends. */
    method Move(ghost s: State, a: Attempt, o: Oracle) returns (next: Option<Attempt>, answer: Option<Answer>)
      requires s.world == View() && s.attempt == Some(a)
      modifies this
      ensures var s' := Next(s, Event.Advance(o));
              && View() == s'.world && next == s'.attempt
              && s'.replies == s.replies + if answer.Some? then [Reply(a.op, a.no, answer.value, |created|)] else []
      ensures s.nextAttempt == Next(s, Event.Advance(o)).nextAttempt
    {
      var isNew := !(DEFAULT_BOARD in boards && (boards[DEFAULT_BOARD].path, o.db) in used);
      var p := Advance(a, o, isNew);
      hide Step;
      match p
      case On(place, locals) => next, answer := Some(a.(place := place, locals := locals)), None;
      case Done(given) => next, answer := None, Some(given);
    }

    /** One event at the stores. */
    method Happen(ghost s: State, attempt: Option<Attempt>, no: nat, e: Event)
      returns (next: Option<Attempt>, nextNo: nat, answers: seq<Answer>)
      requires s.world == View() && s.attempt == attempt && s.nextAttempt == no
      modifies this
      ensures var s' := Next(s, e);
              && View() == s'.world && next == s'.attempt && nextNo == s'.nextAttempt
              && Given(s'.replies) == Given(s.replies) + answers
    {
      next, nextNo, answers := attempt, no, [];
      hide Step, Changed;
      match e
      case Enter(op, payload) =>
        if attempt.None? { next, nextNo := Some(Fresh(no, op, payload)), no + 1; }
      case LockTimeout(_) => nextNo, answers := no + 1, [UNKNOWN_OUTCOME];
      case TurnedAway(_) => nextNo, answers := no + 1, [Expired];
      case LockFailed(_) => nextNo, answers := no + 1, [Unreported];
      case Advance(o) =>
        if attempt.Some? {
          var answer;
          next, answer := Move(s, attempt.value, o);
          answers := if answer.Some? then [answer.value] else [];
        }
      case Revoke => next := if attempt.Some? then Some(attempt.value.(authorized := false)) else None;
      case Crash => next := None;
      case Outside(change) => Change(change, Busy(attempt));
    }

    /** Every run of the operations, from new stores, is a run of the machine; so whatever happened, no
        two cards in the tables carry the same operation key. */
    method Serve(events: seq<Event>) returns (answers: seq<Answer>)
      requires View() == Initial().world
      modifies this
      ensures View() == Run(Initial(), events).world && answers == Given(Run(Initial(), events).replies)
      ensures OneCardPerKey(tables)
    {
      var attempt, no := None, 0;
      answers := [];
      ghost var s := Initial();
      var i := 0;
      hide Next;
      while i < |events|
        invariant i <= |events| && s == Run(Initial(), events[..i])
        invariant s.world == View() && s.attempt == attempt && s.nextAttempt == no && answers == Given(s.replies)
      {
        var more;
        attempt, no, more := Happen(s, attempt, no, events[i]);
        answers := answers + more;
        assert events[..i + 1][..i] == events[..i];
        s := Next(s, events[i]);
        i := i + 1;
      }
      assert events[..|events|] == events;
      OneKeyOneCard(events);
    }
  }

  /** The answers alone, in the order in which they were given. */
  function Given(replies: seq<Reply>): (r: seq<Answer>)
    ensures |r| == |replies| && forall i :: 0 <= i < |r| ==> r[i] == replies[i].answer
  {
    seq(|replies|, i requires 0 <= i < |replies| => replies[i].answer)
  }

  /** No two cards, wherever they lie, carry the same operation key. */
  predicate OneCardPerKey(tables: map<DbId, Table>) {
    forall d, e, t, u :: d in tables && e in tables && t in tables[d] && u in tables[e] ==>
      (tables[d][t].key.Some? && tables[e][u].key == tables[d][t].key ==> d == e && t == u)
  }

  lemma OneKeyOneCard(events: seq<Event>)
    ensures OneCardPerKey(Run(Initial(), events).world.tables)
  {
    var w := Run(Initial(), events).world;
    hide Run;
    forall d, e, t, u | d in w.tables && e in w.tables && t in w.tables[d] && u in w.tables[e]
                        && w.tables[d][t].key.Some? && w.tables[e][u].key == w.tables[d][t].key
      ensures d == e && t == u
    {
      AtMostOneCard(events, w.tables[d][t].key.value);
      assert TableOf(w, d) == w.tables[d] && TableOf(w, e) == w.tables[e];
    }
  }

  lemma OnlyOne(s: set<TaskId>, a: TaskId, b: TaskId)
    requires |s| <= 1 && a in s && b in s
    ensures a == b
  {
    assert |s - {a}| == 0;
    assert s - {a} == {};
  }
}
