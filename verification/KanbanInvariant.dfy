/** What every step of a Kanban attempt keeps. */
module KanbanInvariant {
  import opened Options
  import opened KanbanProtocol

  /** The card of an operation, by all its fields: what was asked for, parked for everybody. */
  function ParkedCard(op: OpId, payload: Payload): Card {
    Card(Some(op), payload.title, payload.body, true, Blocked, false, true, true)
  }

  /** The verification of a card, found or new, passes for this one card only. */
  lemma VerifiedExactlyWhen(card: Card, op: OpId, payload: Payload)
    ensures VerifiedParked(card, op, payload) <==> card == ParkedCard(op, payload)
  {
  }

  // ---------------------------------------------------------------- what was made

  /** Some card was committed for `op`. */
  ghost predicate Made(created: seq<Creation>, op: OpId) {
    exists i :: 0 <= i < |created| && created[i].op == op
  }

  ghost predicate MadeIn(created: seq<Creation>, op: OpId, task: TaskId, db: DbId) {
    exists i :: 0 <= i < |created| && created[i].op == op && created[i].task == task && created[i].txn.conn == db
  }

  /** The committed card of `op` is `task` on `board`; `maker` names its attempt when known. */
  ghost predicate MadeAs(created: seq<Creation>, op: OpId, task: TaskId, board: Slug, maker: Option<nat>) {
    exists i :: 0 <= i < |created| && created[i].op == op && created[i].task == task && created[i].pinned.slug == board
                && (maker.Some? ==> created[i].attempt == maker.value)
  }

  ghost predicate MadeBy(created: seq<Creation>, attempt: nat) {
    exists i :: 0 <= i < |created| && created[i].attempt == attempt
  }

  // ---------------------------------------------------------------- the stores

  /** The commit happened in the pinned database, after one passing generation check and two
      passing authority checks of its own write transaction, and the ledger knows about it. */
  predicate CreationOk(w: World, c: Creation) {
    && c.op in w.ledger && w.ledger[c.op].identity == c.pinned
    && !w.ledger[c.op].state.Prepared?
    && (w.ledger[c.op].state.Committed? ==> w.ledger[c.op].task == Some(c.task))
    && c.txn == Txn(c.pinned.db, Some(c.pinned), 2)
  }

  ghost predicate RowOk(w: World, op: OpId)
    requires op in w.ledger
  {
    var row := w.ledger[op];
    && (row.identity.path, row.identity.db) in w.used
    && (row.state.Committed? ==> Made(w.created, op) && row.task.Some?)
  }

  predicate CreatedOk(w: World) {
    && (forall i, j :: 0 <= i < j < |w.created| ==> w.created[i].op != w.created[j].op)
    && (forall i :: 0 <= i < |w.created| ==> CreationOk(w, w.created[i]))
  }

  ghost predicate LedgerOk(w: World) {
    forall op :: op in w.ledger ==> RowOk(w, op)
  }

  ghost predicate TableOk(created: seq<Creation>, db: DbId, table: Table) {
    forall t :: t in table && table[t].key.Some? ==> MadeIn(created, table[t].key.value, t, db)
  }

  ghost predicate CardsOk(w: World) {
    forall db :: db in w.tables ==> TableOk(w.created, db, w.tables[db])
  }

  predicate FilesOk(w: World) {
    forall p :: p in w.files ==> (p, w.files[p]) in w.used
  }

  ghost predicate CoreOk(w: World) {
    CreatedOk(w) && LedgerOk(w) && CardsOk(w) && FilesOk(w)
  }

  // ---------------------------------------------------------------- the attempt in the lock

  /** The attempt works on the live row of its operation. */
  predicate Holds(w: World, a: Attempt) {
    && a.locals.entry.Some?
    && a.op in w.ledger && w.ledger[a.op] == a.locals.entry.value
    && a.locals.entry.value.payload == a.payload
    && !a.locals.entry.value.state.Committed?
  }

  ghost predicate MayTouch(w: World, a: Attempt) {
    Holds(w, a) && a.locals.entry.value.state.Mutating? && (a.locals.mayCreate ==> !Made(w.created, a.op))
  }

  /** The table an open transaction is about to commit. */
  ghost predicate Staged(w: World, a: Attempt) {
    var l := a.locals;
    && (l.createdNow ==> l.mayCreate && l.task !in TableOf(w, l.txn.conn))
    && l.task in l.staged && VerifiedParked(l.staged[l.task], a.op, a.payload)
    && (if l.createdNow then l.staged == TableOf(w, l.txn.conn)[l.task := l.staged[l.task]]
        else l.staged == TableOf(w, l.txn.conn))
  }

  ghost predicate Landed(w: World, a: Attempt) {
    && Holds(w, a) && a.locals.entry.value.state.Mutating?
    && MadeAs(w.created, a.op, a.locals.task, a.locals.entry.value.identity.slug,
              if a.locals.createdNow then Some(a.no) else None)
  }

  /** The ledger already tells the receipt. */
  ghost predicate Receiptable(w: World, op: OpId, maker: Option<nat>) {
    && op in w.ledger && w.ledger[op].state.Committed? && w.ledger[op].task.Some?
    && MadeAs(w.created, op, w.ledger[op].task.value, w.ledger[op].identity.slug, maker)
  }

  predicate GenerationPinned(w: World, a: Attempt) {
    a.locals.generation.Some? && (a.locals.generation.value.path, a.locals.generation.value.db) in w.used
  }

  ghost predicate PrepareOk(w: World, a: Attempt) {
    && (a.place.LedgerRead? || a.place.Historical? ==> a.locals.entry == EntryOf(w, a.op))
    && (a.place.Historical? ==> Receiptable(w, a.op, None))
    && (!a.place.Entered? && !a.place.LedgerRead? && !a.place.Historical? ==> a.op !in w.ledger)
    && (a.place.Pinned? || a.place.Intent? ==> GenerationPinned(w, a))
  }

  /** The places from the first row check up to the end of the board transaction. */
  predicate BeforeCommit(place: Place) {
    !Preparing(place) && !PastCommit(place)
  }

  /** The places at which the row is MUTATING and the board may be written. */
  predicate Touching(place: Place) {
    BeforeCommit(place) && !place.CheckCurrent? && !place.CheckAuthority? && !place.Mark?
  }

  /** What the transaction of an attempt at this place has established. */
  function Established(place: Place, identity: Identity): Txn {
    Txn(identity.db,
        if place.Begin? || place.CheckLocked? then None else Some(identity),
        if place.Mutate? || place.SecondAuthority? then 1 else if place.CommitBoard? then 2 else 0)
  }

  ghost predicate WorkOk(w: World, a: Attempt) {
    && a.locals.entry.Some?
    && (BeforeCommit(a.place) ==> Holds(w, a))
    && (a.place.Mark? ==> a.locals.entry.value.state.Prepared?)
    && (Touching(a.place) ==> MayTouch(w, a))
    && (a.place.CheckOpened? ==> Connected(w, a))
    && (Touching(a.place) && !a.place.Open? && !a.place.CheckOpened? ==>
          a.locals.txn == Established(a.place, a.locals.entry.value.identity))
    && (a.place.SecondAuthority? || a.place.CommitBoard? ==> Staged(w, a))
    && (a.place.CheckPost? || a.place.Finalize? ==> Landed(w, a))
    && (a.place.Receipt? ==> Receiptable(w, a.op, if a.locals.createdNow then Some(a.no) else None))
  }

  /** The database is the one now at its path. */
  predicate Installed(w: World, identity: Identity) {
    identity.path in w.files && w.files[identity.path] == identity.db
  }

  /** The connection leads to the pinned database, or that database has left its path. */
  predicate Connected(w: World, a: Attempt)
    requires a.locals.entry.Some?
  {
    var identity := a.locals.entry.value.identity;
    && a.locals.txn == Txn(a.locals.txn.conn, None, 0)
    && (a.locals.txn.conn == identity.db || !Installed(w, identity))
  }

  predicate PastCommit(place: Place) {
    place.CheckPost? || place.Finalize? || place.Receipt?
  }

  ghost predicate AttemptOk(w: World, a: Attempt) {
    && (!PastCommit(a.place) ==> !MadeBy(w.created, a.no))
    && (if Preparing(a.place) then PrepareOk(w, a) else WorkOk(w, a))
  }

  /** What an answer must be backed by at the moment it is given. */
  ghost predicate Backed(w: World, a: Attempt, answer: Answer) {
    match answer
    case Success(acknowledged, task, board) =>
      MadeAs(w.created, a.op, task, board, if acknowledged then Some(a.no) else None)
    case Typed(NotCommitted, _) => !Made(w.created, a.op)
    case Typed(CommittedOnce, _) => Made(w.created, a.op)
    case Typed(Unknown, _) => true
    case Expired => !MadeBy(w.created, a.no)
    case Unreported => true
  }

  /** A move leads to sound stores and either to a place that is in order or to a backed answer. */
  ghost predicate MoveOk(a: Attempt, m: Move) {
    CoreOk(m.world) &&
    match m
    case Go(w, place, locals) => AttemptOk(w, a.(place := place, locals := locals))
    case Leave(w, answer) => Backed(w, a, answer)
  }

  // ---------------------------------------------------------------- building blocks

  lemma PreparedIsNotMade(w: World, op: OpId)
    requires CoreOk(w) && (op in w.ledger ==> w.ledger[op].state.Prepared?)
    ensures !Made(w.created, op)
  {
    assert forall i :: 0 <= i < |w.created| ==> CreationOk(w, w.created[i]);
  }

  lemma CommittedIsMade(w: World, op: OpId)
    requires CoreOk(w) && op in w.ledger && w.ledger[op].state.Committed?
    ensures w.ledger[op].task.Some? && Made(w.created, op)
    ensures MadeAs(w.created, op, w.ledger[op].task.value, w.ledger[op].identity.slug, None)
  {
    assert RowOk(w, op);
    var i :| 0 <= i < |w.created| && w.created[i].op == op;
    assert CreationOk(w, w.created[i]);
  }

  /** Installing files and editing boards cannot hurt the core while `used` keeps up. */
  lemma FilesKeepCore(w: World, w': World)
    requires CoreOk(w) && FilesOk(w') && w.used <= w'.used
    requires w' == w.(files := w'.files, used := w'.used, boards := w'.boards)
    ensures CoreOk(w')
  {
    assert forall i :: 0 <= i < |w.created| ==> CreationOk(w, w.created[i]) ==> CreationOk(w', w.created[i]);
    assert forall op :: op in w.ledger ==> RowOk(w, op) ==> RowOk(w', op);
  }

  /** Writing one row keeps the core when the row fits the cards made for its operation. */
  lemma RowWriteKeepsCore(w: World, op: OpId, row: Row)
    requires CoreOk(w)
    requires RowOk(WithRow(w, op, row), op)
    requires forall i :: 0 <= i < |w.created| && w.created[i].op == op ==> CreationOk(WithRow(w, op, row), w.created[i])
    ensures CoreOk(WithRow(w, op, row))
  {
    var w' := WithRow(w, op, row);
    forall i | 0 <= i < |w.created| ensures CreationOk(w', w.created[i]) {
      assert CreationOk(w, w.created[i]);
    }
    forall p | p in w'.ledger ensures RowOk(w', p) {
      if p != op { assert RowOk(w, p); }
    }
  }

  lemma TableWriteKeepsCore(w: World, db: DbId, table: Table)
    requires CoreOk(w) && TableOk(w.created, db, table)
    ensures CoreOk(w.(tables := w.tables[db := table]))
  {
    var w' := w.(tables := w.tables[db := table]);
    assert forall i :: 0 <= i < |w.created| ==> CreationOk(w, w.created[i]) ==> CreationOk(w', w.created[i]);
    assert forall op :: op in w.ledger ==> RowOk(w, op) ==> RowOk(w', op);
  }

  // ---------------------------------------------------------------- preparing

  lemma LedgerReadKeeps(w: World, a: Attempt)
    requires CoreOk(w) && AttemptOk(w, a) && a.place.LedgerRead?
    ensures MoveOk(a, AfterLedgerRead(w, a))
  {
    if a.locals.entry.Some? {
      if a.locals.entry.value.state.Prepared? { PreparedIsNotMade(w, a.op); }
      if a.locals.entry.value.state.Committed? { CommittedIsMade(w, a.op); }
    }
    hide CoreOk, Made, MadeBy, MadeAs;
  }

  lemma SelectKeeps(w: World, a: Attempt, o: Oracle)
    requires CoreOk(w) && AttemptOk(w, a) && (a.place.Selecting? || a.place.SelectionFailed? || a.place.Selected?)
    ensures MoveOk(a, PrepareStep(w, a, o))
  {
    PreparedIsNotMade(w, a.op);
    hide CoreOk, Made, MadeBy;
  }

  lemma InitDefaultKeeps(w: World, a: Attempt, o: Oracle)
    requires CoreOk(w) && AttemptOk(w, a) && a.place.InitDefault?
    ensures MoveOk(a, MakeDefault(w, a, o))
  {
    FilesKeepCore(w, InitializeDefault(w, o));
    hide CoreOk, MadeBy;
  }

  lemma PinKeeps(w: World, a: Attempt, o: Oracle)
    requires CoreOk(w) && AttemptOk(w, a) && (a.place.DefaultReady? || a.place.Pinning? || a.place.Pinned?)
    ensures MoveOk(a, PrepareStep(w, a, o))
  {
    var generation := GenerationOf(w, a.locals.board);
    assert generation.Some? ==> (generation.value.path, generation.value.db) in w.used;
    hide CoreOk, MadeBy, GenerationOf;
  }

  lemma IntentKeeps(w: World, a: Attempt, o: Oracle)
    requires CoreOk(w) && AttemptOk(w, a) && a.place.Intent?
    ensures MoveOk(a, InsertIntent(w, a, o))
  {
    PreparedIsNotMade(w, a.op);
    RowWriteKeepsCore(w, a.op, Row(a.payload, a.locals.generation.value, Prepared, None));
    hide CoreOk, Made, MadeBy;
  }

  lemma EntryKeeps(w: World, a: Attempt, o: Oracle)
    requires CoreOk(w) && AttemptOk(w, a) && (a.place.Entered? || a.place.Historical?)
    ensures MoveOk(a, PrepareStep(w, a, o))
  {
    hide CoreOk, MadeBy, MadeAs;
  }

  lemma PrepareKeeps(w: World, a: Attempt, o: Oracle)
    requires CoreOk(w) && AttemptOk(w, a) && Preparing(a.place)
    ensures MoveOk(a, PrepareStep(w, a, o))
  {
    hide CoreOk, AttemptOk, MoveOk, AfterLedgerRead, MakeDefault, InsertIntent;
    if a.place.LedgerRead? { LedgerReadKeeps(w, a); }
    else if a.place.InitDefault? { InitDefaultKeeps(w, a, o); }
    else if a.place.Intent? { IntentKeeps(w, a, o); }
    else {
      hide PrepareStep;
      if a.place.Selecting? || a.place.SelectionFailed? || a.place.Selected? { SelectKeeps(w, a, o); }
      else if a.place.DefaultReady? || a.place.Pinning? || a.place.Pinned? { PinKeeps(w, a, o); }
      else { EntryKeeps(w, a, o); }
    }
  }

  // ---------------------------------------------------------------- working

  lemma CheckKeeps(w: World, a: Attempt, row: Row, o: Oracle)
    requires CoreOk(w) && AttemptOk(w, a) && a.locals.entry == Some(row)
    requires a.place.CheckCurrent? || a.place.CheckAuthority?
    ensures MoveOk(a, WorkStep(w, a, row, o))
  {
    hide CoreOk, Made, MadeBy, MadeAs, GenerationMatches, MutateBoard;
    assert Holds(w, a);
    if row.state.Prepared? { PreparedIsNotMade(w, a.op); }
    if a.place.CheckAuthority? { hide WorkStep; DecideKeeps(w, a, row); WorkIsDecide(w, a, row, o); }
  }

  lemma WorkIsDecide(w: World, a: Attempt, row: Row, o: Oracle)
    requires a.place.CheckAuthority?
    ensures WorkStep(w, a, row, o) == DecideCreation(w, a, row)
  {
    hide MutateBoard;
  }

  lemma DecideKeeps(w: World, a: Attempt, row: Row)
    requires CoreOk(w) && AttemptOk(w, a) && a.locals.entry == Some(row) && a.place.CheckAuthority?
    requires row.state.Prepared? ==> !Made(w.created, a.op)
    ensures MoveOk(a, DecideCreation(w, a, row))
  {
    hide CoreOk, Made, MadeBy, MadeAs;
  }

  lemma OpenKeeps(w: World, a: Attempt, row: Row, o: Oracle)
    requires CoreOk(w) && AttemptOk(w, a) && a.locals.entry == Some(row)
    requires a.place.Open? || a.place.Begin?
    ensures MoveOk(a, WorkStep(w, a, row, o))
  {
    hide CoreOk, Made, MadeBy;
  }

  /** A connection opened on another file cannot pass the check: the pinned file is gone for good. */
  lemma CheckOpenedKeeps(w: World, a: Attempt, row: Row, o: Oracle)
    requires CoreOk(w) && AttemptOk(w, a) && a.locals.entry == Some(row)
    requires a.place.CheckOpened? || a.place.CheckLocked? || a.place.CheckPost?
    ensures MoveOk(a, WorkStep(w, a, row, o))
  {
    hide CoreOk, Made, MadeBy, MadeAs;
  }

  lemma AuthorityKeeps(w: World, a: Attempt, row: Row, o: Oracle)
    requires CoreOk(w) && AttemptOk(w, a) && a.locals.entry == Some(row)
    requires a.place.FirstAuthority? || a.place.SecondAuthority?
    ensures MoveOk(a, WorkStep(w, a, row, o))
  {
    hide CoreOk, Made, MadeBy;
  }

  lemma MarkKeeps(w: World, a: Attempt, o: Oracle)
    requires CoreOk(w) && AttemptOk(w, a) && a.place.Mark?
    ensures MoveOk(a, MarkMutating(w, a, o))
  {
    PreparedIsNotMade(w, a.op);
    assert RowOk(w, a.op);
    RowWriteKeepsCore(w, a.op, w.ledger[a.op].(state := Mutating));
    hide CoreOk, Made, MadeBy;
  }

  lemma MutateKeeps(w: World, a: Attempt, o: Oracle)
    requires CoreOk(w) && AttemptOk(w, a) && a.place.Mutate?
    ensures MoveOk(a, MutateBoard(w, a, o))
  {
    hide CoreOk, Made, MadeBy;
  }

  /** Appending a card only adds to what was made. */
  lemma MadeGrows(created: seq<Creation>, c: Creation)
    ensures forall op :: Made(created + [c], op) <==> Made(created, op) || op == c.op
    ensures forall n :: MadeBy(created + [c], n) <==> MadeBy(created, n) || n == c.attempt
    ensures forall op, t, db :: MadeIn(created, op, t, db) ==> MadeIn(created + [c], op, t, db)
    ensures MadeIn(created + [c], c.op, c.task, c.txn.conn)
    ensures MadeAs(created + [c], c.op, c.task, c.pinned.slug, Some(c.attempt))
  {
    var after := created + [c];
    assert after[|created|] == c;
    assert forall i :: 0 <= i < |created| ==> after[i] == created[i];
    forall op ensures Made(after, op) <==> Made(created, op) || op == c.op {
      if Made(created, op) {
        var i :| 0 <= i < |created| && created[i].op == op;
        assert after[i].op == op;
      }
    }
    forall n ensures MadeBy(after, n) <==> MadeBy(created, n) || n == c.attempt {
      if MadeBy(created, n) {
        var i :| 0 <= i < |created| && created[i].attempt == n;
        assert after[i].attempt == n;
      }
    }
    forall op, t, db | MadeIn(created, op, t, db) ensures MadeIn(after, op, t, db) {
      var i :| 0 <= i < |created| && created[i].op == op && created[i].task == t && created[i].txn.conn == db;
      assert after[i].op == op;
    }
  }

  /** A card of this protocol that sits in a table was committed there. */
  lemma CommitExistingKeeps(w: World, a: Attempt, row: Row)
    requires CoreOk(w) && MayTouch(w, a) && Staged(w, a) && !a.locals.createdNow && a.locals.entry == Some(row)
    requires a.locals.txn == Established(CommitBoard, row.identity)
    ensures CoreOk(Committing(w, a, row)) && Landed(Committing(w, a, row), a)
  {
    var db := a.locals.txn.conn;
    assert TableOk(w.created, db, a.locals.staged);
    TableWriteKeepsCore(w, db, a.locals.staged);
    var i :| 0 <= i < |w.created| && w.created[i].op == a.op && w.created[i].task == a.locals.task;
    assert CreationOk(w, w.created[i]);
  }

  lemma CommitNewKeeps(w: World, a: Attempt, row: Row)
    requires CoreOk(w) && MayTouch(w, a) && Staged(w, a) && a.locals.createdNow && a.locals.entry == Some(row)
    requires a.locals.txn == Established(CommitBoard, row.identity)
    ensures CoreOk(Committing(w, a, row)) && Landed(Committing(w, a, row), a)
  {
    var w' := Committing(w, a, row);
    var l := a.locals;
    var c := Creation(a.op, a.no, l.task, row.identity, l.txn);
    MadeGrows(w.created, c);
    assert CreationOk(w', c);
    forall i | 0 <= i < |w'.created| ensures CreationOk(w', w'.created[i]) {
      if i < |w.created| { assert CreationOk(w, w.created[i]); }
    }
    assert forall i :: 0 <= i < |w.created| ==> w.created[i].op != a.op;
    assert forall op :: op in w.ledger ==> RowOk(w, op) ==> RowOk(w', op);
    forall db | db in w'.tables ensures TableOk(w'.created, db, w'.tables[db]) {
      assert TableOk(w.created, db, TableOf(w, db));
    }
  }

  lemma LandedIsOk(w: World, a: Attempt)
    requires Landed(w, a)
    ensures AttemptOk(w, a.(place := CheckPost, locals := a.locals))
  {
    hide MadeAs;
  }

  lemma CommitKeeps(w: World, a: Attempt, row: Row, o: Oracle)
    requires CoreOk(w) && MayTouch(w, a) && Staged(w, a) && a.locals.entry == Some(row)
    requires a.locals.txn == Established(CommitBoard, row.identity)
    ensures MoveOk(a, CommitTransaction(w, a, row, o))
  {
    if a.locals.createdNow { CommitNewKeeps(w, a, row); } else { CommitExistingKeeps(w, a, row); }
    LandedIsOk(Committing(w, a, row), a);
    hide CoreOk, MadeBy, Committing, MayTouch, Staged, Landed, AttemptOk;
  }

  lemma FinalizeRowKeeps(w: World, a: Attempt, row: Row)
    requires CoreOk(w) && Landed(w, a)
    requires row == w.ledger[a.op].(state := Committed, task := Some(a.locals.task))
    ensures CoreOk(WithRow(w, a.op, row))
    ensures AttemptOk(WithRow(w, a.op, row), a.(place := Receipt, locals := a.locals))
  {
    assert CoreOk(WithRow(w, a.op, row)) by {
      assert RowOk(w, a.op);
      assert forall i :: 0 <= i < |w.created| ==> CreationOk(w, w.created[i]);
      RowWriteKeepsCore(w, a.op, row);
    }
    hide CoreOk;
  }

  lemma FinalizeKeeps(w: World, a: Attempt, o: Oracle)
    requires CoreOk(w) && Landed(w, a)
    ensures MoveOk(a, FinalizeLedger(w, a, o))
  {
    FinalizeRowKeeps(w, a, w.ledger[a.op].(state := Committed, task := Some(a.locals.task)));
    hide CoreOk, MadeBy, AttemptOk, WithRow;
  }

  lemma ReceiptKeeps(w: World, a: Attempt, o: Oracle)
    requires CoreOk(w) && AttemptOk(w, a) && a.place.Receipt?
    ensures MoveOk(a, GiveReceipt(w, a, o))
  {
    hide CoreOk, MadeAs;
  }

  lemma {:induction false} StepKeeps(w: World, a: Attempt, o: Oracle)
    requires CoreOk(w) && AttemptOk(w, a)
    ensures MoveOk(a, Step(w, a, o))
  {
    if Preparing(a.place) { hide CoreOk, AttemptOk, MoveOk, PrepareStep; PrepareKeeps(w, a, o); }
    else { WorkKeeps(w, a, a.locals.entry.value, o); }
  }

  lemma WorkKeeps(w: World, a: Attempt, row: Row, o: Oracle)
    requires CoreOk(w) && AttemptOk(w, a) && !Preparing(a.place) && a.locals.entry == Some(row)
    ensures MoveOk(a, WorkStep(w, a, row, o))
  {
    hide CoreOk, Made, MadeAs, MadeBy, MoveOk, MarkMutating, MutateBoard, CommitTransaction, FinalizeLedger, GiveReceipt;
    match a.place
    case Mark => MarkKeeps(w, a, o);
    case Mutate => MutateKeeps(w, a, o);
    case CommitBoard => CommitKeeps(w, a, row, o);
    case Finalize => FinalizeKeeps(w, a, o);
    case Receipt => ReceiptKeeps(w, a, o);
    case _ =>
      hide WorkStep;
      if a.place.FirstAuthority? || a.place.SecondAuthority? { AuthorityKeeps(w, a, row, o); }
      else if a.place.CheckOpened? || a.place.CheckLocked? || a.place.CheckPost? { CheckOpenedKeeps(w, a, row, o); }
      else if a.place.Open? || a.place.Begin? { OpenKeeps(w, a, row, o); }
      else { CheckKeeps(w, a, row, o); }
  }
}
