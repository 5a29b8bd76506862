/** The client object of mcp_client.py: its id counter, its pending futures and its closed flag. */
module McpClient {
  import opened RequestCorrelation

  class FutureCell {
    var state: Future

    constructor ()
      ensures state == Open
    {
      state := Open;
    }
  }

  class Client {
    var nextId: int
    var pending: map<int, FutureCell>
    var closed: bool

    constructor ()
      ensures InStep(Initial()) && pending == map[]
    {
      nextId, pending, closed := 1, map[], false;
    }

    /** The object is in the state of the machine: each pending id has its own future. */
    ghost predicate InStep(s: State)
      reads this, pending.Values
    {
      && nextId == NextId(s) && closed == s.closed && pending.Keys == s.pending
      && (forall id :: id in pending ==> Known(s, id) && pending[id].state == Get(s, id).future)
      && (forall i, j :: i in pending && j in pending && pending[i] == pending[j] ==> i == j)
    }

    /** The start of `request`, up to its send. */
    method Begin(ghost s: State) returns (id: int, future: FutureCell?)
      requires InStep(s) && forall i :: i in s.pending ==> i < NextId(s)
      modifies this`nextId, this`pending
      ensures InStep(Next(s, Start))
      ensures if s.closed then future == null && pending == old(pending) else future != null && fresh(future) && id == NextId(s) && pending == old(pending)[id := future]
    {
      id, future := 0, null;
      if closed { return; }
      id := nextId;
      nextId := nextId + 1;
      var cell := new FutureCell();
      future := cell;
      pending := pending[id := cell];
      assert forall i :: Known(s, i) ==> Get(Next(s, Start), i) == Get(s, i);
    }

    /** `handle_message` for a message with a result or an error. */
    method HandleReply(ghost s: State, id: RpcId, reply: Reply)
      requires InStep(s)
      modifies pending.Values
      ensures InStep(ReceiveNext(s, id, reply)) && pending == old(pending)
    {
      if id.Text? || id.n !in pending { return; }
      var cell := pending[id.n];
      if !cell.state.Open? { return; }
      cell.state := Resolved(reply);
      assert forall i :: i in pending && i != id.n ==> Get(ReceiveNext(s, id, reply), i) == Get(s, i);
    }

    /** The `finally` of `request`. */
    method End(ghost s: State, id: int, future: FutureCell)
      requires InStep(s) && Known(s, id) && future.state == Get(s, id).future
      requires forall i :: i in pending && pending[i] == future ==> i == id
      modifies this`pending, future
      ensures InStep(Finish(s, id)) && future.state == Get(Finish(s, id), id).future
      ensures !future.state.Open? && pending == old(pending) - {id}
    {
      pending := pending - {id};
      if future.state.Open? { future.state := GivenUp; }
      assert forall i :: i in pending ==> Get(Finish(s, id), i) == Get(s, i) && pending[i] != future;
    }

    /** Fail every pending future that is still open, in the order of the ids. */
    method FailAll()
      requires forall i, j :: i in pending && j in pending && pending[i] == pending[j] ==> i == j
      requires forall id :: id in pending ==> 1 <= id < nextId
      modifies pending.Values
      ensures forall id :: id in pending ==> pending[id].state == Failing(old(pending[id].state))
    {
      var next := 1;
      while next < nextId
        invariant forall id :: id in pending ==>
                    pending[id].state == if id >= next then old(pending[id].state) else Failing(old(pending[id].state))
      {
        if next in pending && pending[next].state.Open? {
          var cell := pending[next];
          cell.state := ClosedFuture;
        }
        next := next + 1;
      }
    }

    /** `close`: every open future fails, and nothing is pending any more. */
    method Close(ghost s: State)
      requires InStep(s) && (s.closed ==> s.pending == {})
      modifies this`closed, this`pending, pending.Values
      ensures InStep(CloseNext(s)) && pending == map[]
      ensures !s.closed ==> forall id :: id in s.pending ==> old(pending)[id].state == Get(CloseNext(s), id).future
    {
      if closed { return; }
      closed := true;
      FailAll();
      assert forall id :: id in s.pending ==> Get(CloseNext(s), id).future == Failing(Get(s, id).future);
      pending := map[];
    }

    // -------------------------------------------------------------- whole runs

    /** The coroutines of all requests so far: where each stands and which future it holds. */
    ghost predicate Tracks(s: State, stages: seq<Stage>, cells: seq<FutureCell>)
      reads this, pending.Values, cells
    {
      && InStep(s) && |stages| == |s.requests| && |cells| == |s.requests|
      && (forall i :: 0 <= i < |cells| ==> s.requests[i] == Request(stages[i], cells[i].state))
      && (forall i, j :: 0 <= i < j < |cells| ==> cells[i] != cells[j])
      && (forall id :: id in pending ==> pending[id] == cells[id - 1])
    }

    /** The coroutine of request `id` ends. */
    method EndRequest(ghost s: State, stages: seq<Stage>, cells: seq<FutureCell>, id: int) returns (next: seq<Stage>)
      requires Tracks(s, stages, cells) && Known(s, id)
      modifies this`pending, cells
      ensures Tracks(Finish(s, id), next, cells)
    {
      hide Finish;
      FinishMeans(s, id);
      End(s, id, cells[id - 1]);
      next := stages[id - 1 := Finished];
    }

    /** The coroutine of request `id` moves on. */
    method MoveRequest(ghost s: State, stages: seq<Stage>, cells: seq<FutureCell>, id: int, stage: Stage) returns (next: seq<Stage>)
      requires Tracks(s, stages, cells) && Known(s, id)
      ensures Tracks(Put(s, id, Get(s, id).(stage := stage)), next, cells)
    {
      next := stages[id - 1 := stage];
    }

    /** `request` after its send, its wait or its cancellation message; `got` is what its caller gets. */
    method ResumeRequest(ghost s: State, stages: seq<Stage>, cells: seq<FutureCell>, id: int, e: Event)
      returns (next: seq<Stage>, got: seq<(int, Reply)>)
      requires Tracks(s, stages, cells) && Known(s, id)
      requires e == Wake(id) || e == TimeOut(id) || e == CancelTask(id) || e == CancelSent(id) || (e.Sent? && e.id == id)
      modifies this`pending, cells
      ensures Tracks(Next(s, e), next, cells) && Next(s, e).returned == s.returned + got
    {
      hide Finish, Tracks;
      next, got := stages, [];
      FinishMeans(s, id);
      TracksMeans(s, stages, cells, id);
      var stage, future := stages[id - 1], cells[id - 1].state;
      var ends, gives := false, false;
      match e {
        case Sent(_, result) =>
          if stage.Sending? && result.Ok? { next := MoveRequest(s, stages, cells, id, Waiting); }
          ends := stage.Sending? && !result.Ok?;
        case Wake(_) =>
          ends := stage.Waiting? && !future.Open?;
          got := if ends && future.Resolved? then [(id, future.reply)] else [];
        case TimeOut(_) => gives := stage.Waiting? && future.Open?;
        case CancelTask(_) =>
          gives := stage.Waiting?;
          ends := stage.Sending? || stage.Cancelling?;
        case CancelSent(_) => ends := stage.Cancelling?;
      }
      if gives && !closed { next := MoveRequest(s, stages, cells, id, Cancelling); }
      if ends || (gives && closed) { next := EndRequest(s, stages, cells, id); }
      ghost var s' := Next(s, e);
      SameRequests(s', s'.(returned := s.returned), next, cells);
    }

    lemma TracksMeans(s: State, stages: seq<Stage>, cells: seq<FutureCell>, id: int)
      requires Tracks(s, stages, cells) && Known(s, id)
      ensures id - 1 < |stages| && id - 1 < |cells| && Get(s, id) == Request(stages[id - 1], cells[id - 1].state)
      ensures closed == s.closed
    {
    }

    lemma SameRequests(s: State, s': State, stages: seq<Stage>, cells: seq<FutureCell>)
      requires s' == s.(returned := s'.returned)
      ensures Tracks(s', stages, cells) <==> Tracks(s, stages, cells)
    {
    }

    method StartRequest(ghost s: State, stages: seq<Stage>, cells: seq<FutureCell>) returns (next: seq<Stage>, futures: seq<FutureCell>)
      requires Tracks(s, stages, cells) && forall i :: i in s.pending ==> Known(s, i)
      modifies this`nextId, this`pending
      ensures cells <= futures && forall i :: |cells| <= i < |futures| ==> fresh(futures[i])
      ensures Tracks(Next(s, Start), next, futures)
    {
      next, futures := stages, cells;
      var id, future := Begin(s);
      if future != null {
        assert pending[id].state == Get(Next(s, Start), id).future;
        next, futures := stages + [Sending], cells + [future];
      }
    }

    /** The future of a request that is not pending is none of the pending ones. */
    lemma NotPending(cells: seq<FutureCell>)
      requires forall id :: id in pending ==> 1 <= id <= |cells| && pending[id] == cells[id - 1]
      requires forall i, j :: 0 <= i < j < |cells| ==> cells[i] != cells[j]
      ensures forall i :: 0 <= i < |cells| && i + 1 !in pending ==> cells[i] !in pending.Values
    {
      forall i | 0 <= i < |cells| && i + 1 !in pending ensures cells[i] !in pending.Values {
        assert forall id :: id in pending ==> cells[id - 1] != cells[i];
      }
    }

    method Receive(ghost s: State, stages: seq<Stage>, cells: seq<FutureCell>, id: RpcId, reply: Reply)
      requires Tracks(s, stages, cells)
      modifies cells
      ensures Tracks(ReceiveNext(s, id, reply), stages, cells)
    {
      hide ReceiveNext;
      ReceivedRequests(s, id, reply);
      assert forall id :: id in pending ==> pending[id] in cells;
      NotPending(cells);
      HandleReply(s, id, reply);
      forall i | 0 <= i < |cells| ensures ReceiveNext(s, id, reply).requests[i] == Request(stages[i], cells[i].state) {
        if i + 1 in pending { assert pending[i + 1].state == Get(ReceiveNext(s, id, reply), i + 1).future; }
      }
    }

    method CloseAll(ghost s: State, stages: seq<Stage>, cells: seq<FutureCell>)
      requires Tracks(s, stages, cells) && (s.closed ==> s.pending == {})
      modifies this`closed, this`pending, cells
      ensures Tracks(CloseNext(s), stages, cells)
    {
      ghost var before := pending;
      ClosedRequests(s);
      hide CloseNext;
      assert forall id :: id in pending ==> pending[id] in cells;
      NotPending(cells);
      Close(s);
      forall i | 0 <= i < |cells| ensures CloseNext(s).requests[i] == Request(stages[i], cells[i].state) {
        if !s.closed && i + 1 in before { assert before[i + 1].state == Get(CloseNext(s), i + 1).future; }
      }
    }

    /** One event of the client. */
    method Happen(ghost s: State, stages: seq<Stage>, cells: seq<FutureCell>, e: Event)
      returns (next: seq<Stage>, futures: seq<FutureCell>, got: seq<(int, Reply)>)
      requires Tracks(s, stages, cells) && Inv(s)
      modifies this, cells
      ensures cells <= futures && forall i :: |cells| <= i < |futures| ==> fresh(futures[i])
      ensures Tracks(Next(s, e), next, futures) && Next(s, e).returned == s.returned + got
    {
      next, futures, got := stages, cells, [];
      PendingAreKnown(s);
      CountsAgree(s, stages, cells);
      hide Inv, Tracks;
      match e
      case Start => next, futures := StartRequest(s, stages, cells);
      case Receive(id, reply) => Receive(s, stages, cells, id, reply);
      case Close => CloseAll(s, stages, cells);
      case _ =>
        hide Next;
        if 1 <= e.id <= |cells| { next, got := ResumeRequest(s, stages, cells, e.id, e); }
        else { UnknownDoesNothing(s, e); }
    }

    lemma CountsAgree(s: State, stages: seq<Stage>, cells: seq<FutureCell>)
      requires Tracks(s, stages, cells)
      ensures |cells| == |s.requests|
    {
    }

    /** Every run of a new client is a run of the machine: no request returns twice. */
    method Serve(events: seq<Event>) returns (returned: seq<(int, Reply)>)
      requires InStep(Initial()) && pending == map[]
      modifies this
      ensures InStep(Run(Initial(), events)) && returned == Run(Initial(), events).returned
      ensures forall i, j :: 0 <= i < j < |returned| ==> returned[i].0 != returned[j].0
    {
      returned := [];
      var stages: seq<Stage> := [];
      var cells: seq<FutureCell> := [];
      ghost var s := Initial();
      var n := 0;
      while n < |events|
        invariant n <= |events| && s == Run(Initial(), events[..n])
        invariant Tracks(s, stages, cells) && returned == s.returned && forall i :: 0 <= i < |cells| ==> fresh(cells[i])
      {
        hide Next, Inv;
        RunKeeps(Initial(), events[..n]);
        var more;
        stages, cells, more := Happen(s, stages, cells, events[n]);
        returned := returned + more;
        assert events[..n + 1][..n] == events[..n];
        s := Next(s, events[n]);
        n := n + 1;
      }
      assert events[..|events|] == events;
      RunKeeps(Initial(), events);
    }
  }

  lemma ReceivedRequests(s: State, id: RpcId, reply: Reply)
    ensures var s' := ReceiveNext(s, id, reply);
            && |s'.requests| == |s.requests| && s'.pending == s.pending
            && forall i :: 0 <= i < |s.requests| ==>
                 s'.requests[i].stage == s.requests[i].stage && (i + 1 !in s.pending ==> s'.requests[i] == s.requests[i])
  {
  }

  lemma ClosedRequests(s: State)
    ensures |CloseNext(s).requests| == |s.requests| && CloseNext(s).returned == s.returned
    ensures s.closed ==> CloseNext(s) == s
    ensures forall i :: 0 <= i < |s.requests| ==>
              CloseNext(s).requests[i].stage == s.requests[i].stage
              && (i + 1 !in s.pending ==> CloseNext(s).requests[i] == s.requests[i])
  {
  }

  lemma FinishMeans(s: State, id: int)
    requires Known(s, id)
    ensures var f := Get(s, id).future; var done := Request(Finished, if f.Open? then GivenUp else f);
            Finish(s, id) == s.(requests := s.requests[id - 1 := done], pending := s.pending - {id})
  {
  }

  lemma PendingAreKnown(s: State)
    requires Inv(s)
    ensures forall i :: i in s.pending ==> Known(s, i)
    ensures s.closed ==> s.pending == {}
  {
    if s.closed {
      forall i ensures i !in s.pending { assert i in s.pending <==> !s.closed && InFlight(s, i); }
      assert s.pending == {};
    }
  }

  lemma UnknownDoesNothing(s: State, e: Event)
    requires !e.Start? && !e.Receive? && !e.Close? && !Known(s, e.id)
    ensures Next(s, e) == s
  {
  }

  /** What closing does to a future. */
  function Failing(f: Future): Future {
    if f.Open? then ClosedFuture else f
  }
}
