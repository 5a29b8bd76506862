/**
 Request correlation of mcp_client.py: which reply resolves which request, over every run of requests,
 replies, timeouts, cancellations and a close.
 */
module RequestCorrelation {

  /** An id as the peer may send it; the client itself only uses numbers. */
  datatype RpcId = Number(n: int) | Text(s: string)

  datatype Reply = Reply(error: bool, value: string)

  /** The future of a request: open, resolved by a reply, failed by the close, or given up. */
  datatype Future = Open | Resolved(reply: Reply) | ClosedFuture | GivenUp

  /** Where the coroutine of a request stands. */
  datatype Stage = Sending | Waiting | Cancelling | Finished

  datatype Request = Request(stage: Stage, future: Future)

  /** `requests[i]` is the request with id `i + 1`; `pending` is `_pending`, whose values are the futures
      of the requests; `returned` lists what callers got. */
  datatype State = State(requests: seq<Request>, pending: set<int>, closed: bool, returned: seq<(int, Reply)>)

  datatype Result = Ok | Failed | Cancelled

  datatype Event =
    | Start
    | Sent(id: int, result: Result)
    | Receive(replyId: RpcId, reply: Reply)
    | Wake(id: int)
    | TimeOut(id: int)
    | CancelTask(id: int)
    | CancelSent(id: int)
    | Close

  function Initial(): State {
    State([], {}, false, [])
  }

  function NextId(s: State): int { |s.requests| + 1 }

  predicate Known(s: State, id: int) { 1 <= id <= |s.requests| }

  function Get(s: State, id: int): Request
    requires Known(s, id)
  {
    s.requests[id - 1]
  }

  function Put(s: State, id: int, r: Request): State
    requires Known(s, id)
  {
    s.(requests := s.requests[id - 1 := r])
  }

  /** The `finally` of `request`. */
  function Finish(s: State, id: int): State
    requires Known(s, id)
  {
    var r := Get(s, id);
    Put(s, id, Request(Finished, if r.future.Open? then GivenUp else r.future)).(pending := s.pending - {id})
  }

  function ReceiveNext(s: State, id: RpcId, reply: Reply): State {
    if id.Text? || id.n !in s.pending || !Known(s, id.n) || !Get(s, id.n).future.Open? then s
    else Put(s, id.n, Get(s, id.n).(future := Resolved(reply)))
  }

  function WakeNext(s: State, id: int): State {
    if !Known(s, id) || !Get(s, id).stage.Waiting? || Get(s, id).future.Open? then s
    else if Get(s, id).future.Resolved? then
      Finish(s, id).(returned := s.returned + [(id, Get(s, id).future.reply)])
    else Finish(s, id)
  }

  /** A timeout or a cancelled task first tells the peer, unless the transport is closed. */
  function GiveUp(s: State, id: int): State
    requires Known(s, id)
  {
    if s.closed then Finish(s, id) else Put(s, id, Get(s, id).(stage := Cancelling))
  }

  function CloseNext(s: State): State {
    if s.closed then s
    else
      s.(closed := true, pending := {},
         requests := seq(|s.requests|, i requires 0 <= i < |s.requests| =>
                          if i + 1 in s.pending && s.requests[i].future.Open?
                          then s.requests[i].(future := ClosedFuture) else s.requests[i]))
  }

  function Next(s: State, e: Event): State {
    match e
    case Start =>
      if s.closed then s
      else s.(requests := s.requests + [Request(Sending, Open)], pending := s.pending + {NextId(s)})
    case Sent(id, result) =>
      if !Known(s, id) || !Get(s, id).stage.Sending? then s
      else if result.Ok? then Put(s, id, Get(s, id).(stage := Waiting)) else Finish(s, id)
    case Receive(id, reply) => ReceiveNext(s, id, reply)
    case Wake(id) => WakeNext(s, id)
    case TimeOut(id) =>
      if !Known(s, id) || !Get(s, id).stage.Waiting? || !Get(s, id).future.Open? then s else GiveUp(s, id)
    case CancelTask(id) =>
      if !Known(s, id) then s
      else if Get(s, id).stage.Waiting? then GiveUp(s, id)
      else if Get(s, id).stage.Sending? || Get(s, id).stage.Cancelling? then Finish(s, id) else s
    case CancelSent(id) =>
      if !Known(s, id) || !Get(s, id).stage.Cancelling? then s else Finish(s, id)
    case Close => CloseNext(s)
  }

  function Run(s: State, events: seq<Event>): State
    decreases |events|
  {
    if events == [] then s else Next(Run(s, events[..|events| - 1]), events[|events| - 1])
  }

  // ---------------------------------------------------------------- what every step keeps

  /** The request is still in its coroutine. */
  predicate InFlight(s: State, id: int) { Known(s, id) && !Get(s, id).stage.Finished? }

  ghost predicate Inv(s: State) {
    && (forall id :: id in s.pending <==> !s.closed && InFlight(s, id))
    && (forall id :: InFlight(s, id) ==> !Get(s, id).future.GivenUp?)
    && (forall i :: 0 <= i < |s.returned| ==>
          Known(s, s.returned[i].0) && Get(s, s.returned[i].0) == Request(Finished, Resolved(s.returned[i].1)))
    && (forall i, j :: 0 <= i < j < |s.returned| ==> s.returned[i].0 != s.returned[j].0)
  }

  /** Requests keep their ids, a future is settled once, and a finished request is left alone. */
  ghost predicate Settles(s: State, s': State) {
    && |s.requests| <= |s'.requests| && s.returned <= s'.returned && (s.closed ==> s'.closed)
    && forall id :: Known(s, id) ==>
         && (!Get(s, id).future.Open? ==> Get(s', id).future == Get(s, id).future)
         && (Get(s, id).stage.Finished? ==> Get(s', id).stage.Finished?)
  }

  /** After a change of request `id` all other requests are as before. */
  predicate OnlyAt(s: State, s': State, id: int) {
    && |s'.requests| == |s.requests| && s'.closed == s.closed
    && forall i :: 0 <= i < |s.requests| && i + 1 != id ==> s'.requests[i] == s.requests[i]
  }

  lemma ChangeKeeps(s: State, s': State, id: int)
    requires Inv(s) && InFlight(s, id) && OnlyAt(s, s', id)
    requires s'.pending == if InFlight(s', id) then s.pending else s.pending - {id}
    requires s'.returned == s.returned
             || (Get(s', id).future.Resolved? && s'.returned == s.returned + [(id, Get(s', id).future.reply)] && !InFlight(s', id))
    requires !Get(s, id).future.Open? ==> Get(s', id).future == Get(s, id).future
    requires InFlight(s', id) ==> !Get(s', id).future.GivenUp?
    ensures Inv(s') && Settles(s, s')
  {
    forall j ensures InFlight(s', j) == if j == id then InFlight(s', id) else InFlight(s, j) {
    }
    forall i | 0 <= i < |s'.returned|
      ensures Known(s', s'.returned[i].0) && Get(s', s'.returned[i].0) == Request(Finished, Resolved(s'.returned[i].1))
    {
      if i < |s.returned| { assert !InFlight(s, s.returned[i].0); }
    }
    forall j | Known(s', j) ensures Known(s, j) && (j != id ==> Get(s', j) == Get(s, j)) {
    }
  }

  lemma FinishKeeps(s: State, id: int)
    requires Inv(s) && InFlight(s, id)
    ensures Inv(Finish(s, id)) && Settles(s, Finish(s, id))
  {
    assert !InFlight(Finish(s, id), id);
    hide Inv, Settles;
    ChangeKeeps(s, Finish(s, id), id);
  }

  lemma WakeKeeps(s: State, id: int)
    requires Inv(s)
    ensures Inv(WakeNext(s, id)) && Settles(s, WakeNext(s, id))
  {
    SettlesSelf(s);
    hide Inv, Settles;
    if InFlight(s, id) && WakeNext(s, id) != s {
      assert !InFlight(WakeNext(s, id), id);
      ChangeKeeps(s, WakeNext(s, id), id);
    }
  }

  lemma ReceiveKeeps(s: State, id: RpcId, reply: Reply)
    requires Inv(s)
    ensures Inv(ReceiveNext(s, id, reply)) && Settles(s, ReceiveNext(s, id, reply))
  {
    SettlesSelf(s);
    if ReceiveNext(s, id, reply) != s {
      assert InFlight(s, id.n);
      hide Inv, Settles;
      ChangeKeeps(s, ReceiveNext(s, id, reply), id.n);
    }
  }

  lemma StageKeeps(s: State, id: int, stage: Stage)
    requires Inv(s) && InFlight(s, id) && !stage.Finished?
    ensures var s' := Put(s, id, Get(s, id).(stage := stage)); Inv(s') && Settles(s, s')
  {
    var s' := Put(s, id, Get(s, id).(stage := stage));
    assert InFlight(s', id) && !Get(s, id).future.GivenUp?;
    hide Inv, Settles;
    ChangeKeeps(s, s', id);
  }

  lemma StartKeeps(s: State)
    requires Inv(s)
    ensures Inv(Next(s, Start)) && Settles(s, Next(s, Start))
  {
    if !s.closed {
      var s' := Next(s, Start);
      forall j ensures InFlight(s', j) == (j == NextId(s) || InFlight(s, j)) {
      }
      forall j | Known(s, j) ensures Known(s', j) && Get(s', j) == Get(s, j) {
      }
    }
  }

  lemma CloseKeeps(s: State)
    requires Inv(s)
    ensures Inv(CloseNext(s)) && Settles(s, CloseNext(s))
  {
    var s' := CloseNext(s);
    forall j | Known(s, j) ensures Known(s', j) && Get(s', j).stage == Get(s, j).stage
                                   && (Get(s, j).future.Open? || Get(s', j) == Get(s, j)) {
    }
    forall i | 0 <= i < |s'.returned|
      ensures Known(s', s'.returned[i].0) && Get(s', s'.returned[i].0) == Request(Finished, Resolved(s'.returned[i].1))
    {
      assert Known(s, s.returned[i].0);
    }
  }

  lemma NextKeeps(s: State, e: Event)
    requires Inv(s)
    ensures Inv(Next(s, e)) && Settles(s, Next(s, e))
  {
    SettlesSelf(s);
    hide Inv, Settles, Finish, Put, WakeNext, ReceiveNext, CloseNext;
    match e
    case Start => StartKeeps(s);
    case Sent(id, result) => if InFlight(s, id) { FinishKeeps(s, id); StageKeeps(s, id, Waiting); }
    case Receive(id, reply) => ReceiveKeeps(s, id, reply);
    case Wake(id) => WakeKeeps(s, id);
    case TimeOut(id) => if InFlight(s, id) { FinishKeeps(s, id); StageKeeps(s, id, Cancelling); }
    case CancelTask(id) => if InFlight(s, id) { FinishKeeps(s, id); StageKeeps(s, id, Cancelling); }
    case CancelSent(id) => if InFlight(s, id) { FinishKeeps(s, id); }
    case Close => CloseKeeps(s);
  }

  lemma SettlesTwice(s: State, t: State, u: State)
    requires Settles(s, t) && Settles(t, u)
    ensures Settles(s, u)
  {
    assert forall id :: Known(s, id) ==> Known(t, id);
    hide Get;
  }

  lemma {:induction false} RunKeeps(s: State, events: seq<Event>)
    requires Inv(s)
    ensures Inv(Run(s, events)) && Settles(s, Run(s, events))
    decreases |events|
  {
    hide Next, Inv, Settles;
    if events == [] {
      assert Settles(s, s) by { SettlesSelf(s); }
    } else {
      var before := Run(s, events[..|events| - 1]);
      RunKeeps(s, events[..|events| - 1]);
      NextKeeps(before, events[|events| - 1]);
      SettlesTwice(s, before, Run(s, events));
    }
  }

  lemma SettlesSelf(s: State)
    ensures Settles(s, s)
  {
  }

  // ---------------------------------------------------------------- every run

  /** Before the close the pending ids are exactly those of the requests still in flight; after it there
      are none.  A new request gets an id that no request had before. */
  lemma {:induction false} PendingIsInFlight(events: seq<Event>, id: int)
    ensures var s := Run(Initial(), events);
            && (id in s.pending <==> !s.closed && InFlight(s, id))
            && !Known(s, NextId(s)) && (!s.closed ==> InFlight(Next(s, Start), NextId(s)))
  {
    RunKeeps(Initial(), events);
    hide Run;
  }

  /** A reply resolves the request of its own number and no other, and only while that is in flight and
      unresolved before the close; otherwise it changes nothing at all. */
  lemma {:induction false} ReplyResolvesItsOwn(events: seq<Event>, id: RpcId, reply: Reply)
    ensures var s := Run(Initial(), events); var s' := Next(s, Receive(id, reply));
            if id.Number? && !s.closed && InFlight(s, id.n) && Get(s, id.n).future.Open?
            then && |s'.requests| == |s.requests| && Get(s', id.n) == Request(Get(s, id.n).stage, Resolved(reply))
                 && (forall j :: Known(s, j) && j != id.n ==> Get(s', j) == Get(s, j))
                 && s'.pending == s.pending && s'.returned == s.returned
            else s' == s
  {
    RunKeeps(Initial(), events);
    hide Run;
  }

  /** A future is settled at most once in any run, so the first reply counts and every later one, also
      after a timeout, a cancellation or the close, is inert. */
  lemma {:induction false} SettledOnce(events: seq<Event>, more: seq<Event>, id: int)
    requires var s := Run(Initial(), events); Known(s, id) && !Get(s, id).future.Open?
    ensures var s := Run(Initial(), events); var s' := Run(s, more);
            && Known(s', id) && Get(s', id).future == Get(s, id).future
            && (Get(s, id).stage.Finished? || s.closed ==>
                  forall reply :: Next(s', Receive(Number(id), reply)) == s')
  {
    var s := Run(Initial(), events);
    RunKeeps(Initial(), events);
    RunKeeps(s, more);
    hide Run;
  }

  /** Every request returns at most once, and what it returns is the reply that resolved it. */
  lemma ReturnsItsReply(events: seq<Event>, i: nat)
    requires i < |Run(Initial(), events).returned|
    ensures var s := Run(Initial(), events); var r := s.returned[i];
            && Known(s, r.0) && Get(s, r.0) == Request(Finished, Resolved(r.1))
            && forall j :: 0 <= j < |s.returned| && j != i ==> s.returned[j].0 != r.0
  {
    RunKeeps(Initial(), events);
    hide Run;
  }

  // ---------------------------------------------------------------- what a caller gets

  /** In every run a caller that waits and wakes returns the reply that resolved its request; a request
      that the close has failed ends without one, and one that nothing has settled waits on.  Either way
      its id is forgotten when it ends, and no other request changes. */
  lemma {:induction false} WakesWithItsReply(events: seq<Event>, id: int)
    ensures var s := Run(Initial(), events); var s' := Next(s, Wake(id));
            if Known(s, id) && s.requests[id - 1].stage == Waiting && s.requests[id - 1].future != Open then
              && s'.requests == s.requests[id - 1 := s.requests[id - 1].(stage := Finished)]
              && s'.pending == s.pending - {id} && s'.closed == s.closed
              && match s.requests[id - 1].future
                 case Resolved(reply) => s'.returned == s.returned + [(id, reply)]
                 case ClosedFuture => s'.returned == s.returned
                 case _ => false
            else s' == s
  {
    RunKeeps(Initial(), events);
    hide Run;
    var s := Run(Initial(), events);
    assert InFlight(s, id) ==> !Get(s, id).future.GivenUp?;
  }

  /** In every run a caller that times out or is cancelled while it waits first tells the peer so, still
      able to take a reply, unless the transport is closed; a second cancellation, or one while the request
      is being sent, ends it at once, and so does a send that fails.  A request that ends unresolved has
      its future given up, and its id is forgotten. */
  lemma {:induction false} CallersGiveUp(events: seq<Event>, id: int, result: Result)
    requires Known(Run(Initial(), events), id)
    ensures var s := Run(Initial(), events); var r := s.requests[id - 1];
            var ended := s.(requests := s.requests[id - 1 := Request(Finished, if r.future == Open then GivenUp else r.future)],
                            pending := s.pending - {id});
            var told := if s.closed then ended else s.(requests := s.requests[id - 1 := r.(stage := Cancelling)]);
            var sent := s.(requests := s.requests[id - 1 := r.(stage := Waiting)]);
            && Next(s, TimeOut(id)) == (if r.stage == Waiting && r.future == Open then told else s)
            && Next(s, CancelTask(id)) == (if r.stage == Waiting then told else if r.stage == Finished then s else ended)
            && Next(s, CancelSent(id)) == (if r.stage == Cancelling then ended else s)
            && Next(s, Sent(id, result)) == (if r.stage != Sending then s else if result == Ok then sent else ended)
  {
    hide Run;
  }

  lemma NoMembers(ids: set<int>)
    requires forall id :: id !in ids
    ensures ids == {}
  {
    assert forall id :: id in ids <==> id in ids - ids;
    assert ids == ids - ids == {};
  }

  lemma NothingPending(s: State)
    requires Inv(s)
    ensures s.closed ==> s.pending == {}
  {
    if s.closed { NoMembers(s.pending); }
  }

  /** In every run the close fails the open future of every request in flight, forgets all ids and admits no
      new request; what was settled stays settled. */
  lemma {:induction false} CloseFailsTheRest(events: seq<Event>, i: nat)
    ensures var s := Run(Initial(), events); var s' := Next(s, Close);
            && s'.closed && s'.pending == {} && s'.returned == s.returned && |s'.requests| == |s.requests|
            && Next(s', Start) == s' && (s.closed ==> s' == s)
            && (i < |s.requests| ==>
                  s'.requests[i] == if !s.closed && s.requests[i].stage != Finished && s.requests[i].future == Open
                                    then Request(s.requests[i].stage, ClosedFuture) else s.requests[i])
  {
    RunKeeps(Initial(), events);
    hide Run;
    var s := Run(Initial(), events);
    assert i < |s.requests| ==> (i + 1 in s.pending <==> !s.closed && InFlight(s, i + 1));
    NothingPending(s);
  }

  lemma {:induction false} RunAppend(s: State, first: seq<Event>, second: seq<Event>)
    ensures Run(s, first + second) == Run(Run(s, first), second)
    decreases |second|
  {
    hide Next;
    if second == [] {
      assert first + second == first;
    } else {
      var n := |second| - 1;
      RunAppend(s, first, second[..n]);
      assert (first + second)[..|first + second| - 1] == first + second[..n];
    }
  }

  lemma RunIs(s: State, e: Event, s': State)
    requires Next(s, e) == s'
    ensures Run(s, [e]) == s'
  {
    hide Next;
    assert [e][..0] == [];
  }

  /** A request that is sent and replied to returns that reply, and leaves nothing pending. */
  lemma {:induction false} UndisturbedRequest(s: State, reply: Reply)
    requires Inv(s) && !s.closed
    ensures var id := |s.requests| + 1;
            Run(s, [Start] + [Sent(id, Ok)] + [Receive(Number(id), reply)] + [Wake(id)])
            == State(s.requests + [Request(Finished, Resolved(reply))], s.pending, false, s.returned + [(id, reply)])
  {
    hide Run;
    var id := |s.requests| + 1;
    assert id !in s.pending;
    hide Inv;
    var started := s.(requests := s.requests + [Request(Sending, Open)], pending := s.pending + {id});
    assert Next(s, Start) == started;
    var sent := started.(requests := s.requests + [Request(Waiting, Open)]);
    assert started.requests[id - 1 := Request(Waiting, Open)] == sent.requests;
    assert Next(started, Sent(id, Ok)) == sent;
    var resolved := sent.(requests := s.requests + [Request(Waiting, Resolved(reply))]);
    assert sent.requests[id - 1 := Request(Waiting, Resolved(reply))] == resolved.requests;
    assert Next(sent, Receive(Number(id), reply)) == resolved;
    var done := State(s.requests + [Request(Finished, Resolved(reply))], s.pending, false, s.returned + [(id, reply)]);
    assert resolved.requests[id - 1 := Request(Finished, Resolved(reply))] == done.requests;
    assert resolved.pending - {id} == s.pending;
    assert Next(resolved, Wake(id)) == done;
    hide Next;
    RunIs(s, Start, started);
    RunIs(started, Sent(id, Ok), sent);
    RunAppend(s, [Start], [Sent(id, Ok)]);
    RunIs(sent, Receive(Number(id), reply), resolved);
    RunAppend(s, [Start] + [Sent(id, Ok)], [Receive(Number(id), reply)]);
    RunIs(resolved, Wake(id), done);
    RunAppend(s, [Start] + [Sent(id, Ok)] + [Receive(Number(id), reply)], [Wake(id)]);
  }
}
