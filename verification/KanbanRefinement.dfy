/**
 The whole crash-and-retry protocol is a one-cell-per-operation service: a cell is filled once,
 every receipt reads it, and only the attempt that filled it may acknowledge it.
 */
module KanbanRefinement {
  import opened Options
  import opened KanbanProtocol
  import opened KanbanInvariant
  import opened KanbanRuns

  datatype Cell = Cell(task: TaskId, board: Slug, owner: nat)

  datatype Service = Service(cells: map<OpId, Cell>, replies: seq<Reply>)

  /** The answers the service may give about the cells it has. */
  predicate MayAnswer(cells: map<OpId, Cell>, r: Reply) {
    match r.answer
    case Success(acknowledged, task, board) =>
      r.op in cells && cells[r.op].task == task && cells[r.op].board == board
      && (acknowledged ==> cells[r.op].owner == r.attempt)
    case Typed(NotCommitted, _) => r.op !in cells
    case Typed(CommittedOnce, _) => r.op in cells
    case Typed(Unknown, _) => true
    case Expired => forall op :: op in cells ==> cells[op].owner != r.attempt
    case Unreported => true
  }

  /** The service fills one empty cell, or nothing happens. */
  ghost predicate Fills(a: Service, b: Service) {
    a == b || exists op :: op in b.cells && op !in a.cells && b == a.(cells := a.cells[op := b.cells[op]])
  }

  /** The service gives one answer on behalf of an attempt that had none, or nothing happens. */
  predicate Answers(a: Service, b: Service) {
    a == b
    || (|b.replies| == |a.replies| + 1
        && b == a.(replies := a.replies + [b.replies[|a.replies|]])
        && MayAnswer(a.cells, b.replies[|a.replies|])
        && Unanswered(a.replies, b.replies[|a.replies|].attempt))
  }

  function CellsOf(created: seq<Creation>): map<OpId, Cell>
    decreases |created|
  {
    if created == [] then map[]
    else
      var c := created[|created| - 1];
      CellsOf(created[..|created| - 1])[c.op := Cell(c.task, c.pinned.slug, c.attempt)]
  }

  function Abs(s: State): Service {
    Service(CellsOf(s.world.created), s.replies)
  }

  /** One of the commits for `op` filled the cell like this. */
  ghost predicate FilledBy(created: seq<Creation>, op: OpId, cell: Cell) {
    exists i :: 0 <= i < |created| && created[i].op == op
                && cell == Cell(created[i].task, created[i].pinned.slug, created[i].attempt)
  }

  lemma {:induction false} CellsAre(created: seq<Creation>)
    ensures forall op :: op in CellsOf(created) <==> Made(created, op)
    ensures forall op :: op in CellsOf(created) ==> FilledBy(created, op, CellsOf(created)[op])
    decreases |created|
  {
    if created != [] {
      var n := |created| - 1;
      var c := created[n];
      CellsAre(created[..n]);
      assert created == created[..n] + [c];
      MadeGrows(created[..n], c);
      forall op | op in CellsOf(created) ensures FilledBy(created, op, CellsOf(created)[op]) {
        if op == c.op {
          assert created[n].op == op;
        } else {
          var i :| 0 <= i < n && created[..n][i].op == op
                   && CellsOf(created[..n])[op] == Cell(created[..n][i].task, created[..n][i].pinned.slug, created[..n][i].attempt);
          assert created[i].op == op;
        }
      }
    }
  }

  lemma ReceiptReadsCell(created: seq<Creation>, op: OpId, task: TaskId, board: Slug, maker: Option<nat>)
    requires forall i, j :: 0 <= i < j < |created| ==> created[i].op != created[j].op
    requires MadeAs(created, op, task, board, maker)
    ensures op in CellsOf(created) && CellsOf(created)[op].task == task && CellsOf(created)[op].board == board
    ensures maker.Some? ==> CellsOf(created)[op].owner == maker.value
  {
    CellsAre(created);
    assert Made(created, op);
    assert FilledBy(created, op, CellsOf(created)[op]);
  }

  /** A truthful answer given now is one the service may give. */
  lemma TruthIsAnswerable(created: seq<Creation>, r: Reply)
    requires forall i, j :: 0 <= i < j < |created| ==> created[i].op != created[j].op
    requires Truthful(created, r) && r.at == |created|
    ensures MayAnswer(CellsOf(created), r)
  {
    CellsAre(created);
    assert created[..r.at] == created;
    if r.answer.Success? {
      ReceiptReadsCell(created, r.op, r.answer.task, r.answer.board, if r.answer.acknowledged then Some(r.attempt) else None);
      hide CellsOf, FilledBy;
    }
    if r.answer.Expired? {
      forall op | op in CellsOf(created) ensures CellsOf(created)[op].owner != r.attempt {
        assert FilledBy(created, op, CellsOf(created)[op]);
      }
    }
  }

  lemma HistoryRefines(before: seq<Creation>, after: seq<Creation>, replies: seq<Reply>)
    requires after == before || (|after| == |before| + 1 && after[..|before|] == before)
    requires forall i, j :: 0 <= i < j < |after| ==> after[i].op != after[j].op
    ensures Fills(Service(CellsOf(before), replies), Service(CellsOf(after), replies))
  {
    if after != before {
      var c := after[|before|];
      CellsAre(before);
      assert forall i :: 0 <= i < |before| ==> before[i] == after[i] && after[i].op != c.op;
      assert c.op in CellsOf(after);
    }
  }

  lemma AnswerRefines(created: seq<Creation>, replies: seq<Reply>, r: Reply, n: nat)
    requires forall i, j :: 0 <= i < j < |created| ==> created[i].op != created[j].op
    requires RepliesOk(created, replies + [r], n) && r.at == |created|
    ensures Answers(Service(CellsOf(created), replies), Service(CellsOf(created), replies + [r]))
  {
    var all := replies + [r];
    assert all[|replies|] == r;
    TruthIsAnswerable(created, r);
    assert forall i :: 0 <= i < |replies| ==> all[i] == replies[i];
  }

  /** What an event does to the history and the answers. */
  lemma NextTraces(s: State, e: Event)
    ensures var s' := Next(s, e);
            && (s'.world.created == s.world.created
                || (|s'.world.created| == |s.world.created| + 1 && s'.world.created[..|s.world.created|] == s.world.created))
            && (s'.replies == s.replies
                || exists r :: s'.replies == s.replies + [r] && r.at == |s'.world.created|)
  {
    hide Step;
    if e.Advance? && s.attempt.Some? { StepWrites(s.world, s.attempt.value, e.oracle); }
  }

  /** Every event of the protocol is at most one filling and one answer of the service. */
  lemma NextRefines(s: State, e: Event)
    requires Inv(s)
    ensures var b := Abs(Next(s, e));
            Fills(Abs(s), b.(replies := s.replies)) && Answers(b.(replies := s.replies), b)
  {
    var s' := Next(s, e);
    NextKeeps(s, e);
    NextTraces(s, e);
    HistoryRefines(s.world.created, s'.world.created, s.replies);
    hide Next, AttemptOk, LedgerOk, CardsOk, FilesOk, CreationOk, RepliesOk, Fills, Answers, CellsOf;
    if s'.replies != s.replies {
      var r :| s'.replies == s.replies + [r] && r.at == |s'.world.created|;
      AnswerRefines(s'.world.created, s.replies, r, s'.nextAttempt);
    } else { NoAnswer(Abs(s')); }
  }

  lemma NoAnswer(a: Service)
    ensures Answers(a, a)
  {
  }

  /** Every run of the protocol is a run of the service, which starts with no cell filled. */
  lemma RunsRefine(events: seq<Event>, n: nat)
    requires n < |events|
    ensures Abs(Initial()) == Service(map[], [])
    ensures var a := Abs(Run(Initial(), events[..n])); var b := Abs(Run(Initial(), events[..n + 1]));
            Fills(a, b.(replies := a.replies)) && Answers(b.(replies := a.replies), b)
  {
    Reachable(events[..n]);
    NextRefines(Run(Initial(), events[..n]), events[n]);
    assert events[..n + 1][..n] == events[..n];
    hide Next, Fills, Answers;
  }
}
