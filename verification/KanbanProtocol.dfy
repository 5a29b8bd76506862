/**
 The Kanban create protocol of tools.py as one state machine over runs.

 `_execute_kanban_task_create` is cut at every place where another process, the
 wearer's turn, the file system or a crash can act: each `Advance` event runs the
 code from one such place to the next.  The remaining events are the environment.
 `Next` is total and deterministic, every choice of the environment is in the
 event, so a run is just a sequence of events and "in every run" is "for all
 sequences".
 */
module KanbanProtocol {
  import opened Options

  type OpId = string
  type Slug = string
  type DbPath = string
  type DbId = nat
  type TaskId = nat

  /** The normalized arguments.  The ledger stores their SHA-256 digest; taken as
      injective, the digest is the payload itself. */
  datatype Payload = Payload(title: string, body: Option<string>, board: string)

  /** What a board fingerprint hashes (tools.py:779-806), again taken as injective.
      `db` is the identity (device and inode) of the database file. */
  datatype Identity = Identity(slug: Slug, path: DbPath, db: DbId, dir: nat, meta: Option<nat>, createdAt: Option<nat>)

  datatype RowState = Prepared | Mutating | Committed

  datatype Row = Row(payload: Payload, identity: Identity, state: RowState, task: Option<TaskId>)

  datatype Board = Board(path: DbPath, dir: nat, meta: Option<nat>, createdAt: Option<nat>, archived: bool)

  datatype Status = Blocked | Ready | OtherStatus

  /** `key` is the operation of a `g2-kanban:` idempotency key, when the card has one. */
  datatype Card = Card(key: Option<OpId>, title: string, body: Option<string>, byBridge: bool,
                       status: Status, hasAssignee: bool, createdParked: bool, sticky: bool)

  type Table = map<TaskId, Card>

  /** What an open board transaction has established so far. */
  datatype Txn = Txn(conn: DbId, generationSeen: Option<Identity>, authorityPasses: nat)

  /** The places at which an attempt can be suspended, in the order of the code. */
  datatype Place =
    | Entered
    | LedgerRead
    | Historical
    | Selecting
    | SelectionFailed
    | Selected
    | InitDefault
    | DefaultReady
    | Pinning
    | Pinned
    | Intent
    | CheckCurrent
    | CheckAuthority
    | Mark
    | Open
    | CheckOpened
    | Begin
    | CheckLocked
    | FirstAuthority
    | Mutate
    | SecondAuthority
    | CommitBoard
    | CheckPost
    | Finalize
    | Receipt

  /** An attempt inside the lock: its arguments, where it is suspended, and its locals.
      `entry` is the ledger row once there is one; `staged` is the uncommitted table. */
  datatype Attempt = Attempt(no: nat, op: OpId, payload: Payload, authorized: bool, place: Place, locals: Locals)

  datatype Locals = Locals(entry: Option<Row>, board: Slug, code: Code, generation: Option<Identity>,
                           mayCreate: bool, txn: Txn, task: TaskId, createdNow: bool, staged: Table)

  datatype Code = BoardNotFound | BoardAmbiguous | OperationConflict | GenerationChanged | OutcomeUnknown

  datatype CommitState = NotCommitted | CommittedOnce | Unknown

  /** The answers of `_handle_kanban_task_create` (tools.py:1782-1867). `Expired` is the
      untyped `not_committed`, `Unreported` the untyped `unknown`. */
  datatype Answer =
    | Success(acknowledged: bool, task: TaskId, board: Slug)
    | Typed(state: CommitState, code: Code)
    | Expired
    | Unreported

  /** `at` is the number of cards the protocol had committed when it answered. */
  datatype Reply = Reply(op: OpId, attempt: nat, answer: Answer, at: nat)

  /** One card committed by `create_task`, with the transaction that committed it. */
  datatype Creation = Creation(op: OpId, attempt: nat, task: TaskId, pinned: Identity, txn: Txn)

  /** The durable stores: the ledger, the board metadata, the database files and their tables.
      `used` remembers every database ever installed at a path and `created` every card this
      protocol committed; no code reads either. */
  datatype World = World(
    ledger: map<OpId, Row>,
    boards: map<Slug, Board>,
    files: map<DbPath, DbId>,
    used: set<(DbPath, DbId)>,
    tables: map<DbId, Table>,
    created: seq<Creation>)

  datatype State = State(world: World, attempt: Option<Attempt>, nextAttempt: nat, replies: seq<Reply>)

  /** How one interaction with SQLite, the file system or `kanban_db` ends: done, failed
      without effect, or done although an error was reported. */
  datatype Outcome = Ok | Fail | Lost

  datatype Choice = Chosen(slug: Slug) | NotFound | Ambiguous

  /** What kind of error a failed interaction raised.  Denials and timeouts of the operating
      system are caught like those of the bridge's own authority and lock (tools.py:1829-1851). */
  datatype Cause = AccessDenied | TimedOut | OtherCause

  /** Everything one `Advance` may need from outside: the outcome and its cause, the board
      resolved, and the task, card and database file that `kanban_db` produces. */
  datatype Oracle = Oracle(outcome: Outcome, cause: Cause, choice: Choice, task: TaskId, card: Card, db: DbId)

  /** What others do to the boards: edit metadata, delete, move or install database files, and
      edit or delete cards. */
  datatype Change =
    | PutBoard(slug: Slug, board: Board)
    | DropBoard(slug: Slug)
    | InstallFile(path: DbPath, db: DbId)
    | RemoveFile(path: DbPath)
    | PutCard(db: DbId, task: TaskId, card: Card)
    | DeleteCard(db: DbId, task: TaskId)

  datatype Event =
    | Enter(op: OpId, payload: Payload)
    | LockTimeout(op: OpId)
    | TurnedAway(op: OpId)
    | LockFailed(op: OpId)
    | Advance(oracle: Oracle)
    | Revoke
    | Crash
    | Outside(change: Change)

  const DEFAULT_BOARD: Slug := "default"

  function Initial(): State {
    State(World(map[], map[], map[], {}, map[], []), None, 0, [])
  }

  // ---------------------------------------------------------------- pure parts

  /** `_kanban_board_generation`: the identity of an active board, or an exception. */
  function GenerationOf(w: World, slug: Slug): Option<Identity> {
    if slug in w.boards && !w.boards[slug].archived && w.boards[slug].path in w.files then
      var b := w.boards[slug];
      Some(Identity(slug, b.path, w.files[b.path], b.dir, b.meta, b.createdAt))
    else None
  }

  /** `_read_kanban_ledger_entry`. */
  function EntryOf(w: World, op: OpId): Option<Row> {
    if op in w.ledger then Some(w.ledger[op]) else None
  }

  predicate GenerationMatches(w: World, identity: Identity, o: Oracle) {
    o.outcome.Ok? && GenerationOf(w, identity.slug) == Some(identity)
  }

  function TableOf(w: World, db: DbId): Table {
    if db in w.tables then w.tables[db] else map[]
  }

  function Keyed(table: Table, op: OpId): set<TaskId> {
    set t | t in table && table[t].key == Some(op)
  }

  /** `_verify_parked_kanban_task`. */
  predicate VerifiedParked(card: Card, op: OpId, payload: Payload) {
    card.key == Some(op) && card.byBridge && card.title == payload.title && card.body == payload.body
    && card.status.Blocked? && !card.hasAssignee && card.createdParked && card.sticky
  }

  /** The places inside the board transaction, where its write lock is held. */
  predicate InTransaction(place: Place) {
    place.CheckLocked? || place.FirstAuthority? || place.Mutate? || place.SecondAuthority? || place.CommitBoard?
  }

  // ---------------------------------------------------------------- one attempt

  function Fresh(no: nat, op: OpId, payload: Payload): Attempt {
    Attempt(no, op, payload, true, Entered, Locals(None, "", BoardNotFound, None, false, Txn(0, None, 0), 0, false, map[]))
  }

  /** What one step of an attempt does: change the stores and go on, or change them and answer. */
  datatype Move = Go(world: World, place: Place, locals: Locals) | Leave(world: World, answer: Answer)

  function At(w: World, a: Attempt, place: Place): Move {
    Go(w, place, a.locals)
  }

  const UNKNOWN_OUTCOME: Answer := Typed(Unknown, OutcomeUnknown)

  function ConflictAnswer(state: RowState): Answer {
    match state
    case Prepared => Typed(NotCommitted, OperationConflict)
    case Mutating => Typed(Unknown, OperationConflict)
    case Committed => Typed(CommittedOnce, OperationConflict)
  }

  /** `reauthorize()`: go on, or leave with the given answer. */
  function Reauthorized(w: World, a: Attempt, refused: Answer, place: Place): Move {
    if a.authorized then At(w, a, place) else Leave(w, refused)
  }

  function AfterLedgerRead(w: World, a: Attempt): Move {
    if !a.authorized then Leave(w, Expired)
    else if a.locals.entry.None? then At(w, a, Selecting)
    else if a.locals.entry.value.payload != a.payload then Leave(w, ConflictAnswer(a.locals.entry.value.state))
    else if a.locals.entry.value.state.Committed? then At(w, a, Historical)
    else At(w, a, CheckCurrent)
  }

  function GiveHistorical(w: World, a: Attempt): Move {
    if !a.authorized then Leave(w, Expired)
    else if a.locals.entry.None? || a.locals.entry.value.task.None? then Leave(w, Unreported)
    else Leave(w, Success(false, a.locals.entry.value.task.value, a.locals.entry.value.identity.slug))
  }

  /** The answer to an error that no inner handler caught. */
  function Failed(cause: Cause): Answer {
    match cause
    case AccessDenied => Expired
    case TimedOut => UNKNOWN_OUTCOME
    case OtherCause => Unreported
  }

  function SelectBoard(w: World, a: Attempt, o: Oracle): Move {
    if !o.outcome.Ok? then Leave(w, Failed(o.cause))
    else match o.choice
         case Chosen(slug) => Go(w, Selected, a.locals.(board := slug))
         case NotFound => Go(w, SelectionFailed, a.locals.(code := BoardNotFound))
         case Ambiguous => Go(w, SelectionFailed, a.locals.(code := BoardAmbiguous))
  }

  function CheckDefault(w: World, a: Attempt, o: Oracle): Move {
    var slug := a.locals.board;
    if !a.authorized then Leave(w, Expired)
    else if !o.outcome.Ok? then Leave(w, Failed(o.cause))
    else if slug == DEFAULT_BOARD && slug in w.boards && w.boards[slug].path !in w.files then At(w, a, InitDefault)
    else At(w, a, Pinning)
  }

  /** `_initialize_fresh_default_kanban_board`: only a missing default database is made. */
  function InitializeDefault(w: World, o: Oracle): World {
    if DEFAULT_BOARD in w.boards && !o.outcome.Fail?
       && w.boards[DEFAULT_BOARD].path !in w.files && (w.boards[DEFAULT_BOARD].path, o.db) !in w.used
    then Install(w, w.boards[DEFAULT_BOARD].path, o.db)
    else w
  }

  function Install(w: World, path: DbPath, db: DbId): World {
    w.(files := w.files[path := db], used := w.used + {(path, db)})
  }

  function MakeDefault(w: World, a: Attempt, o: Oracle): Move {
    if !a.authorized then Leave(w, Expired)
    else if !o.outcome.Ok? then Leave(InitializeDefault(w, o), Failed(o.cause))
    else At(InitializeDefault(w, o), a, DefaultReady)
  }

  function PinGeneration(w: World, a: Attempt, o: Oracle): Move {
    var generation := GenerationOf(w, a.locals.board);
    if !o.outcome.Ok? then Leave(w, Failed(o.cause))
    else if generation.None? then Leave(w, Unreported)
    else Go(w, Pinned, a.locals.(generation := generation))
  }

  /** The ledger after one write to it. */
  function WithRow(w: World, op: OpId, row: Row): World {
    w.(ledger := w.ledger[op := row])
  }

  function InsertIntent(w: World, a: Attempt, o: Oracle): Move {
    if o.outcome.Fail? || a.op in w.ledger || a.locals.generation.None? then Leave(w, Unreported)
    else
      var row := Row(a.payload, a.locals.generation.value, Prepared, None);
      if o.outcome.Lost? then Leave(WithRow(w, a.op, row), Unreported)
      else Go(WithRow(w, a.op, row), CheckCurrent, a.locals.(entry := Some(row)))
  }

  /** Only a row that is still PREPARED may lead to a new card. */
  function DecideCreation(w: World, a: Attempt, row: Row): Move {
    if !a.authorized then Leave(w, if row.state.Mutating? then UNKNOWN_OUTCOME else Expired)
    else Go(w, if row.state.Prepared? then Mark else Open, a.locals.(mayCreate := row.state.Prepared?))
  }

  /** `_mark_kanban_mutating` changes a row only when it is PREPARED. */
  function MarkMutating(w: World, a: Attempt, o: Oracle): Move {
    if o.outcome.Fail? || a.op !in w.ledger || !w.ledger[a.op].state.Prepared? then Leave(w, Unreported)
    else
      var row := w.ledger[a.op].(state := Mutating);
      if o.outcome.Lost? then Leave(WithRow(w, a.op, row), Unreported)
      else Go(WithRow(w, a.op, row), Open, a.locals.(entry := Some(row)))
  }

  function OpenBoard(w: World, a: Attempt, row: Row, o: Oracle): Move {
    if !o.outcome.Ok? || row.identity.path !in w.files then Leave(w, UNKNOWN_OUTCOME)
    else Go(w, CheckOpened, a.locals.(txn := Txn(w.files[row.identity.path], None, 0)))
  }

  /** A generation check that leaves with the given answer unless the pinned board is current. */
  function CheckGeneration(w: World, a: Attempt, row: Row, o: Oracle, refused: Answer, place: Place): Move {
    if GenerationMatches(w, row.identity, o) then At(w, a, place) else Leave(w, refused)
  }

  function CheckLockedGeneration(w: World, a: Attempt, row: Row, o: Oracle): Move {
    if GenerationMatches(w, row.identity, o)
    then Go(w, FirstAuthority,
               a.locals.(txn := a.locals.txn.(generationSeen := GenerationOf(w, row.identity.slug))))
    else Leave(w, UNKNOWN_OUTCOME)
  }

  function TransactionAuthority(w: World, a: Attempt, place: Place): Move {
    if a.authorized
    then Go(w, place, a.locals.(txn := a.locals.txn.(authorityPasses := a.locals.txn.authorityPasses + 1)))
    else Leave(w, UNKNOWN_OUTCOME)
  }

  /** `SELECT id ... LIMIT 2` returned one row: that row. */
  ghost function Pick(tasks: set<TaskId>): (t: TaskId)
    requires tasks != {}
    ensures t in tasks
  {
    var t :| t in tasks; t
  }

  /** The part of the board transaction between its two authority checks. */
  ghost function MutateBoard(w: World, a: Attempt, o: Oracle): Move {
    var table := TableOf(w, a.locals.txn.conn);
    var existing := Keyed(table, a.op);
    if !o.outcome.Ok? || |existing| > 1 then Leave(w, UNKNOWN_OUTCOME)
    else if existing != {} then
      if VerifiedParked(table[Pick(existing)], a.op, a.payload)
      then Go(w, SecondAuthority, a.locals.(task := Pick(existing), createdNow := false, staged := table))
      else Leave(w, UNKNOWN_OUTCOME)
    else if a.locals.mayCreate && o.task !in table then
      var card := o.card.(key := Some(a.op), sticky := true);
      if VerifiedParked(card, a.op, a.payload)
      then Go(w, SecondAuthority, a.locals.(task := o.task, createdNow := true, staged := table[o.task := card]))
      else Leave(w, UNKNOWN_OUTCOME)
    else Leave(w, UNKNOWN_OUTCOME)
  }

  /** The boards and the history after the transaction commits. */
  function Committing(w: World, a: Attempt, row: Row): World {
    var l := a.locals;
    w.(tables := w.tables[l.txn.conn := l.staged],
       created := if l.createdNow then w.created + [Creation(a.op, a.no, l.task, row.identity, l.txn)] else w.created)
  }

  function CommitTransaction(w: World, a: Attempt, row: Row, o: Oracle): Move {
    if o.outcome.Fail? then Leave(w, UNKNOWN_OUTCOME)
    else if o.outcome.Lost? then Leave(Committing(w, a, row), UNKNOWN_OUTCOME)
    else At(Committing(w, a, row), a, CheckPost)
  }

  /** `_finalize_kanban_ledger` changes a row only when it is MUTATING. */
  function FinalizeLedger(w: World, a: Attempt, o: Oracle): Move {
    if o.outcome.Fail? || a.op !in w.ledger || !w.ledger[a.op].state.Mutating? then Leave(w, Unreported)
    else
      var row := w.ledger[a.op].(state := Committed, task := Some(a.locals.task));
      if o.outcome.Lost? then Leave(WithRow(w, a.op, row), Unreported)
      else At(WithRow(w, a.op, row), a, Receipt)
  }

  function GiveReceipt(w: World, a: Attempt, o: Oracle): Move {
    if !o.outcome.Ok? || a.op !in w.ledger || !w.ledger[a.op].state.Committed? || w.ledger[a.op].task.None?
    then Leave(w, Unreported)
    else Leave(w, Success(a.locals.createdNow, w.ledger[a.op].task.value, w.ledger[a.op].identity.slug))
  }

  /** From the lock to the row the attempt will work on. */
  function PrepareStep(w: World, a: Attempt, o: Oracle): Move {
    match a.place
    case Entered =>
      if !a.authorized then Leave(w, Expired)
      else if !o.outcome.Ok? then Leave(w, Failed(o.cause))
      else Go(w, LedgerRead, a.locals.(entry := EntryOf(w, a.op)))
    case LedgerRead => AfterLedgerRead(w, a)
    case Historical => GiveHistorical(w, a)
    case Selecting => SelectBoard(w, a, o)
    case SelectionFailed => Leave(w, if a.authorized then Typed(NotCommitted, a.locals.code) else Expired)
    case Selected => CheckDefault(w, a, o)
    case InitDefault => MakeDefault(w, a, o)
    case DefaultReady => Reauthorized(w, a, Expired, Pinning)
    case Pinning => PinGeneration(w, a, o)
    case Pinned => Reauthorized(w, a, Expired, Intent)
    case _ => InsertIntent(w, a, o)
  }

  /** From the row to the final receipt. */
  ghost function WorkStep(w: World, a: Attempt, row: Row, o: Oracle): Move {
    match a.place
    case CheckCurrent =>
      CheckGeneration(w, a, row, o,
                      if row.state.Mutating? then UNKNOWN_OUTCOME else Typed(NotCommitted, GenerationChanged),
                      CheckAuthority)
    case CheckAuthority => DecideCreation(w, a, row)
    case Mark => MarkMutating(w, a, o)
    case Open => OpenBoard(w, a, row, o)
    case CheckOpened => CheckGeneration(w, a, row, o, UNKNOWN_OUTCOME, Begin)
    case Begin => if !o.outcome.Ok? then Leave(w, UNKNOWN_OUTCOME) else At(w, a, CheckLocked)
    case CheckLocked => CheckLockedGeneration(w, a, row, o)
    case FirstAuthority => TransactionAuthority(w, a, Mutate)
    case Mutate => MutateBoard(w, a, o)
    case SecondAuthority => TransactionAuthority(w, a, CommitBoard)
    case CommitBoard => CommitTransaction(w, a, row, o)
    case CheckPost => CheckGeneration(w, a, row, o, UNKNOWN_OUTCOME, Finalize)
    case Finalize => FinalizeLedger(w, a, o)
    case _ => GiveReceipt(w, a, o)
  }

  predicate Preparing(place: Place) {
    place.Entered? || place.LedgerRead? || place.Historical? || place.Selecting? || place.SelectionFailed?
    || place.Selected? || place.InitDefault? || place.DefaultReady? || place.Pinning? || place.Pinned?
    || place.Intent?
  }

  ghost function Step(w: World, a: Attempt, o: Oracle): Move {
    if Preparing(a.place) then PrepareStep(w, a, o)
    else if a.locals.entry.Some? then WorkStep(w, a, a.locals.entry.value, o)
    else Leave(w, Unreported)
  }

  // ---------------------------------------------------------------- runs

  /** The attempt in the lock makes its move; when it answers, it releases the lock and ends. */
  function Apply(s: State, a: Attempt, move: Move): State {
    match move
    case Go(world, place, locals) =>
      s.(world := world, attempt := Some(a.(place := place, locals := locals)))
    case Leave(world, answer) =>
      State(world, None, s.nextAttempt, s.replies + [Reply(a.op, a.no, answer, |world.created|)])
  }

  /** An answer given without ever entering the lock. */
  function AnswerOutside(s: State, op: OpId, answer: Answer): State {
    s.(nextAttempt := s.nextAttempt + 1, replies := s.replies + [Reply(op, s.nextAttempt, answer, |s.world.created|)])
  }

  /** The database whose write lock the attempt holds. */
  function Busy(attempt: Option<Attempt>): Option<DbId> {
    if attempt.Some? && InTransaction(attempt.value.place) then Some(attempt.value.locals.txn.conn) else None
  }

  /** A change by others.  Nobody writes to a database inside an open write transaction, only this
      protocol writes or changes `g2-kanban:` keys, and a database that has left a path never comes
      back to it (generations are never reused). */
  function Changed(w: World, busy: Option<DbId>, change: Change): World {
    match change
    case PutBoard(slug, board) => w.(boards := w.boards[slug := board])
    case DropBoard(slug) => w.(boards := w.boards - {slug})
    case InstallFile(path, db) => if (path, db) in w.used then w else Install(w, path, db)
    case RemoveFile(path) => w.(files := w.files - {path})
    case PutCard(db, task, card) =>
      var table := TableOf(w, db);
      var key := if task in table then table[task].key else None;
      if busy == Some(db) || card.key != key then w else w.(tables := w.tables[db := table[task := card]])
    case DeleteCard(db, task) =>
      if busy == Some(db) then w else w.(tables := w.tables[db := TableOf(w, db) - {task}])
  }

  /** One event.  An event that is not enabled leaves the state as it is. */
  ghost function Next(s: State, e: Event): State {
    match e
    case Enter(op, payload) =>
      if s.attempt.Some? then s
      else s.(attempt := Some(Fresh(s.nextAttempt, op, payload)), nextAttempt := s.nextAttempt + 1)
    case LockTimeout(op) => AnswerOutside(s, op, UNKNOWN_OUTCOME)
    case TurnedAway(op) => AnswerOutside(s, op, Expired)
    case LockFailed(op) => AnswerOutside(s, op, Unreported)
    case Advance(o) =>
      if s.attempt.None? then s else Apply(s, s.attempt.value, Step(s.world, s.attempt.value, o))
    case Revoke => if s.attempt.None? then s else s.(attempt := Some(s.attempt.value.(authorized := false)))
    case Crash => s.(attempt := None)
    case Outside(change) => s.(world := Changed(s.world, Busy(s.attempt), change))
  }

  ghost function Run(s: State, events: seq<Event>): State
    decreases |events|
  {
    if events == [] then s else Next(Run(s, events[..|events| - 1]), events[|events| - 1])
  }

  lemma {:induction false} RunAppend(s: State, first: seq<Event>, second: seq<Event>)
    ensures Run(s, first + second) == Run(Run(s, first), second)
    decreases |second|
  {
    hide Next;
    if second == [] {
      assert first + second == first;
    } else {
      var n := |second| - 1;
      RunAppend(s, first, second[..n]);
      assert (first + second)[..|first + second| - 1] == first + second[..n];
    }
  }
}
