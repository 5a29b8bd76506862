/**
 The task destination fence of workflow_relay.py, run against the turn tables of the adapter.

 `_dispatch` is cut where it can be overtaken: after the first authorization, after the replay
 ledger, after the claim of a destination and before the tool is dispatched.  Between any two of
 these the turns may change and other requests may run.
 */
module WorkflowFence {
  import Turns = TurnProtocol
  import opened TurnInvariant
  import opened TurnSafety

  /** The destination a workflow stands for: the onboard list, or the digest of the canonical name of
      a Kanban board, taken as injective. */
  datatype Destination = WorkTasks | Kanban(board: string)

  datatype Stage = Received | Authorized | Admitted | Claimed | Closed

  /** A task-board request: the turn its capability names, where it wants to go, how far it is. */
  datatype Request = Request(event: Turns.EventId, destination: Destination, stage: Stage)

  /** `fence` is `_task_turn_destinations`; the session of a turn is fixed for that turn, so a key is
      its event id.  `claimed` and `sent` only record what happened. */
  datatype State = State(
    turns: Turns.State,
    fence: map<Turns.EventId, Destination>,
    requests: seq<Request>,
    claimed: seq<(Turns.EventId, Destination)>,
    sent: seq<(Turns.EventId, Destination)>)

  /** `denied` is the wording policy of `authorize_workflow_capability`, `admitted` the verdict of the
      replay ledger. */
  datatype Event =
    | Turn(event: Turns.Event)
    | Receive(turnEvent: Turns.EventId, destination: Destination)
    | Authorize(k: nat, denied: bool)
    | Admit(k: nat, admitted: bool)
    | ClaimDestination(k: nat, denied: bool)
    | Send(k: nat)

  function Initial(): State {
    State(Turns.Initial(), map[], [], [], [])
  }

  /** `authorize_workflow_capability`: the event is that of the active, unfinished turn of a
      connected phone. */
  predicate Authorizes(t: Turns.Tables, event: Turns.EventId) {
    t.phone.Some? && Turns.Authorize(t, event).Some?
  }

  function WithStage(s: State, k: nat, stage: Stage): State
    requires k < |s.requests|
  {
    s.(requests := s.requests[k := s.requests[k].(stage := stage)])
  }

  /** `_claim_task_turn_destination`. */
  function ClaimNext(s: State, k: nat, denied: bool): State
    requires k < |s.requests|
  {
    var r := s.requests[k];
    if denied || !Authorizes(s.turns.tables, r.event) then WithStage(s, k, Closed)
    else if r.event in s.fence && s.fence[r.event] != r.destination then WithStage(s, k, Closed)
    else
      WithStage(s, k, Claimed).(
        fence := if r.event in s.fence then s.fence else map[r.event := r.destination],
        claimed := s.claimed + [(r.event, r.destination)])
  }

  function Next(s: State, e: Event): State {
    match e
    case Turn(event) => s.(turns := Turns.Next(s.turns, event))
    case Receive(event, destination) => s.(requests := s.requests + [Request(event, destination, Received)])
    case Authorize(k, denied) =>
      if k >= |s.requests| || !s.requests[k].stage.Received? then s
      else WithStage(s, k, if !denied && Authorizes(s.turns.tables, s.requests[k].event) then Authorized else Closed)
    case Admit(k, admitted) =>
      if k >= |s.requests| || !s.requests[k].stage.Authorized? then s
      else WithStage(s, k, if admitted then Admitted else Closed)
    case ClaimDestination(k, denied) =>
      if k >= |s.requests| || !s.requests[k].stage.Admitted? then s else ClaimNext(s, k, denied)
    case Send(k) =>
      if k >= |s.requests| || !s.requests[k].stage.Claimed? then s
      else WithStage(s, k, Closed).(sent := s.sent + [(s.requests[k].event, s.requests[k].destination)])
  }

  function Run(s: State, events: seq<Event>): State
    decreases |events|
  {
    if events == [] then s else Next(Run(s, events[..|events| - 1]), events[|events| - 1])
  }

  // ---------------------------------------------------------------- the fence

  function AuthorityFor(event: Turns.EventId): Turns.Authority {
    Turns.Authority(event.turnId, event.generation, event)
  }

  /** The turn of this event existed and is no longer authorized. */
  predicate Stale(t: Turns.Tables, event: Turns.EventId) {
    event.generation < t.nextGeneration && !Turns.Valid(t, AuthorityFor(event))
  }

  /** An event is authorized exactly when its authority is current. */
  lemma AuthorizesMeans(t: Turns.Tables, event: Turns.EventId)
    requires TablesOk(t) && Authorizes(t, event)
    ensures Turns.Valid(t, AuthorityFor(event)) && event.generation < t.nextGeneration
  {
    var a := Turns.Authorize(t, event).value;
    AuthorizedExactlyWhen(t, event, a);
    AuthorizedHolder(t, event, a);
  }

  lemma OneIsAuthorized(t: Turns.Tables, a: Turns.EventId, b: Turns.EventId)
    requires Turns.Valid(t, AuthorityFor(a)) && Turns.Valid(t, AuthorityFor(b))
    ensures a == b
  {
  }

  /** A claimed destination is in the fence, or its turn can never claim again. */
  predicate Settled(s: State, c: (Turns.EventId, Destination)) {
    && c.0.generation < s.turns.tables.nextGeneration
    && ((c.0 in s.fence && s.fence[c.0] == c.1) || Stale(s.turns.tables, c.0))
  }

  predicate Agree(a: (Turns.EventId, Destination), b: (Turns.EventId, Destination)) {
    a.0 == b.0 ==> a.1 == b.1
  }

  predicate FenceOk(s: State) {
    && TablesOk(s.turns.tables)
    && (forall e, f :: e in s.fence && f in s.fence ==> e == f)
    && (forall i :: 0 <= i < |s.claimed| ==> Settled(s, s.claimed[i]))
    && (forall i, j :: 0 <= i < |s.claimed| && 0 <= j < |s.claimed| ==> Agree(s.claimed[i], s.claimed[j]))
    && (forall k :: 0 <= k < |s.requests| && s.requests[k].stage.Claimed? ==>
          (s.requests[k].event, s.requests[k].destination) in s.claimed)
    && (forall i :: 0 <= i < |s.sent| ==> s.sent[i] in s.claimed)
    && (forall e :: e in s.fence ==> (e, s.fence[e]) in s.claimed)
  }

  lemma StaleStays(t: Turns.Tables, t': Turns.Tables, event: Turns.EventId)
    requires TablesOk(t) && TablesOk(t') && Declines(t, t') && MakesFresh(t, t') && Stale(t, event)
    ensures Stale(t', event)
  {
    var a := AuthorityFor(event);
    hide TablesOk, Declines, MakesFresh, Turns.Valid, Holder;
    ValidExactlyWhen(t, a);
    ValidExactlyWhen(t', a);
    if o: nat :| Holder(t', o, a) {
      HeldBefore(t, t', o, a);
    }
    assert t.nextGeneration <= t'.nextGeneration by { DeclinesGenerations(t, t'); }
  }

  lemma DeclinesGenerations(t: Turns.Tables, t': Turns.Tables)
    requires Declines(t, t')
    ensures t.nextGeneration <= t'.nextGeneration
  {
  }

  lemma TurnKeeps(s: State, e: Turns.Event)
    requires FenceOk(s)
    ensures FenceOk(Next(s, Turn(e)))
  {
    var s' := Next(s, Turn(e));
    NextTablesOk(s.turns, e);
    NextMakesFresh(s.turns, e);
    DeclinesGenerations(s.turns.tables, s'.turns.tables);
    hide TablesOk, Declines, MakesFresh, Turns.Next, Stale, Agree;
    forall i | 0 <= i < |s'.claimed| ensures Settled(s', s'.claimed[i]) {
      assert Settled(s, s.claimed[i]);
      if Stale(s.turns.tables, s.claimed[i].0) { StaleStays(s.turns.tables, s'.turns.tables, s.claimed[i].0); }
    }
  }

  /** A claim that succeeds agrees with every claim before it. */
  lemma ClaimAgrees(s: State, event: Turns.EventId, destination: Destination, i: nat)
    requires FenceOk(s) && Authorizes(s.turns.tables, event) && i < |s.claimed|
    requires event in s.fence ==> s.fence[event] == destination
    ensures Agree(s.claimed[i], (event, destination))
    ensures s.claimed[i].0 == event ==> event in s.fence
    ensures s.claimed[i].0 != event && event !in s.fence ==> Stale(s.turns.tables, s.claimed[i].0)
  {
    var t := s.turns.tables;
    var c := s.claimed[i];
    AuthorizesMeans(t, event);
    hide TablesOk;
    assert Settled(s, c);
    if c.0 != event && Turns.Valid(t, AuthorityFor(c.0)) { OneIsAuthorized(t, event, c.0); }
  }

  lemma ClaimKeeps(s: State, k: nat, denied: bool)
    requires FenceOk(s) && k < |s.requests|
    ensures FenceOk(ClaimNext(s, k, denied))
  {
    var r := s.requests[k];
    var s' := ClaimNext(s, k, denied);
    if s'.claimed == s.claimed {
      hide TablesOk, Stale, Agree, Authorizes;
      assert forall i :: 0 <= i < |s.claimed| ==> Settled(s, s.claimed[i]);
    } else {
      AuthorizesMeans(s.turns.tables, r.event);
      ClaimSettles(s, s', r.event, r.destination);
      hide TablesOk, Stale, Authorizes;
    }
  }

  /** The claims before stay settled, and agree with the new one. */
  lemma ClaimSettles(s: State, s': State, event: Turns.EventId, destination: Destination)
    requires FenceOk(s) && Authorizes(s.turns.tables, event) && (event in s.fence ==> s.fence[event] == destination)
    requires s'.turns == s.turns && s'.fence == if event in s.fence then s.fence else map[event := destination]
    ensures forall i :: 0 <= i < |s.claimed| ==> Agree(s.claimed[i], (event, destination)) && Settled(s', s.claimed[i])
  {
    hide TablesOk, Stale, Authorizes, Agree;
    forall i | 0 <= i < |s.claimed|
      ensures Agree(s.claimed[i], (event, destination)) && Settled(s', s.claimed[i])
    {
      ClaimAgrees(s, event, destination, i);
      assert Settled(s, s.claimed[i]);
    }
  }

  lemma NextKeeps(s: State, e: Event)
    requires FenceOk(s)
    ensures FenceOk(Next(s, e))
  {
    if e.Turn? { TurnKeeps(s, e.event); }
    else if e.ClaimDestination? {
      if e.k < |s.requests| { ClaimKeeps(s, e.k, e.denied); }
      hide ClaimNext, FenceOk;
    } else {
      hide TablesOk, Stale, Authorizes, Agree, ClaimNext;
      assert forall i :: 0 <= i < |s.claimed| ==> Settled(s, s.claimed[i]);
    }
  }

  lemma {:induction false} ReachableFence(events: seq<Event>)
    ensures FenceOk(Run(Initial(), events))
    decreases |events|
  {
    hide Next;
    if events != [] {
      hide FenceOk;
      ReachableFence(events[..|events| - 1]);
      NextKeeps(Run(Initial(), events[..|events| - 1]), events[|events| - 1]);
    }
  }

  /** Under every interleaving of requests and turn changes: all task-board calls sent for one wearer
      turn have the same destination. */
  lemma OneDestinationPerTurn(events: seq<Event>, i: nat, j: nat)
    requires var sent := Run(Initial(), events).sent;
             i < |sent| && j < |sent| && sent[i].0 == sent[j].0
    ensures var s := Run(Initial(), events); s.sent[i].1 == s.sent[j].1
  {
    ReachableFence(events);
    hide Run, TablesOk, Settled;
    var s := Run(Initial(), events);
    assert s.sent[i] in s.claimed && s.sent[j] in s.claimed;
    var p :| 0 <= p < |s.claimed| && s.claimed[p] == s.sent[i];
    var q :| 0 <= q < |s.claimed| && s.claimed[q] == s.sent[j];
    assert Agree(s.claimed[p], s.claimed[q]);
  }

  /** The event is that of an open turn that is active, and a phone is connected. */
  predicate ActsFor(t: Turns.Tables, o: nat, event: Turns.EventId) {
    && t.phone.Some? && o < |t.objs| && event == Turns.EventId(t.objs[o].generation, t.objs[o].id)
    && event.turnId in t.turns && t.turns[event.turnId] == o && !t.objs[o].finished
    && t.active.Some? && t.active.value == event.turnId
  }

  lemma ActsExactlyWhen(t: Turns.Tables, event: Turns.EventId)
    requires TablesOk(t)
    ensures Authorizes(t, event) <==> exists o: nat :: ActsFor(t, o, event)
  {
    if Authorizes(t, event) {
      var o := Turns.Routed(t, event).value;
      assert EntryOk(t, t.routes[event].turnId);
      assert ActsFor(t, o, event);
    }
    if o: nat :| ActsFor(t, o, event) { assert EntryOk(t, event.turnId); }
  }

  /** In every run a request that the replay ledger has admitted claims its destination exactly when it is
      not denied, its turn acts, and everything its turn has claimed before is this very destination; from
      then on it may be sent.  Otherwise it is closed, and neither the fence nor another request changes. */
  lemma {:induction false} ClaimsExactlyWhen(events: seq<Event>, k: nat, denied: bool)
    requires var s := Run(Initial(), events); k < |s.requests| && s.requests[k].stage.Admitted?
    ensures var s := Run(Initial(), events); var s' := Next(s, ClaimDestination(k, denied)); var r := s.requests[k];
            if !denied && (exists o: nat :: ActsFor(s.turns.tables, o, r.event))
               && (forall i :: 0 <= i < |s.claimed| && s.claimed[i].0 == r.event ==> s.claimed[i].1 == r.destination)
            then && s'.requests == s.requests[k := r.(stage := Claimed)]
                 && s'.claimed == s.claimed + [(r.event, r.destination)]
                 && s'.fence == map[r.event := r.destination]
                 && s'.sent == s.sent && s'.turns == s.turns
            else s' == s.(requests := s.requests[k := r.(stage := Closed)])
  {
    var s := Run(Initial(), events);
    ReachableFence(events);
    hide Run;
    var t := s.turns.tables;
    var r := s.requests[k];
    ActsExactlyWhen(t, r.event);
    if Authorizes(t, r.event) {
      FenceTells(s, r.event, r.destination);
      if r.event in s.fence { OnlyFenced(s, r.event); }
    }
    hide FenceOk, Authorizes, ActsFor;
  }

  /** While the turn is authorized the fence tells what it has claimed. */
  lemma FenceTells(s: State, event: Turns.EventId, destination: Destination)
    requires FenceOk(s) && Authorizes(s.turns.tables, event)
    ensures (event in s.fence ==> s.fence[event] == destination)
            <==> forall i :: 0 <= i < |s.claimed| && s.claimed[i].0 == event ==> s.claimed[i].1 == destination
  {
    AuthorizesMeans(s.turns.tables, event);
    hide TablesOk, Turns.Valid, Authorizes;
    assert forall i :: 0 <= i < |s.claimed| ==> Settled(s, s.claimed[i]);
    if event in s.fence {
      var p :| 0 <= p < |s.claimed| && s.claimed[p] == (event, s.fence[event]);
    }
  }

  lemma OnlyFenced(s: State, event: Turns.EventId)
    requires FenceOk(s) && event in s.fence
    ensures s.fence == map[event := s.fence[event]]
  {
    hide TablesOk, Settled, Agree;
  }

  /** A request moves on step by step: it is authorized when its turn acts and its wording is not denied,
      admitted when the replay ledger says so, and sent once its destination is claimed; any other verdict
      closes it, and a request that does not stand at the step is left alone. */
  lemma {:induction false} RequestsMoveOn(events: seq<Event>, k: nat, verdict: bool)
    ensures var s := Run(Initial(), events);
            var authorized, admitted, sent := Next(s, Authorize(k, verdict)), Next(s, Admit(k, verdict)), Next(s, Send(k));
            if k >= |s.requests| then authorized == s && admitted == s && sent == s
            else
              var r := s.requests[k];
              && authorized == (if r.stage != Received then s
                                else if !verdict && exists o: nat :: ActsFor(s.turns.tables, o, r.event)
                                then s.(requests := s.requests[k := r.(stage := Authorized)])
                                else s.(requests := s.requests[k := r.(stage := Closed)]))
              && admitted == (if r.stage != Authorized then s
                              else s.(requests := s.requests[k := r.(stage := if verdict then Admitted else Closed)]))
              && sent == (if r.stage != Claimed then s
                          else s.(requests := s.requests[k := r.(stage := Closed)], sent := s.sent + [(r.event, r.destination)]))
  {
    var s := Run(Initial(), events);
    ReachableFence(events);
    hide Run;
    if k < |s.requests| { ActsExactlyWhen(s.turns.tables, s.requests[k].event); }
    hide FenceOk, Authorizes, ActsFor;
  }

  /** The fence never holds more than one turn. */
  lemma {:induction false} FenceHoldsOneTurn(events: seq<Event>)
    ensures var s := Run(Initial(), events); forall e, f :: e in s.fence && f in s.fence ==> e == f
  {
    ReachableFence(events);
    hide Run, TablesOk, Settled;
  }

  /** A turn whose key has left the fence is never authorized again, so its fence never reopens. */
  lemma ClearedNeverReturns(events: seq<Event>, more: seq<Turns.Event>, i: nat)
    requires var s := Run(Initial(), events); i < |s.claimed| && s.claimed[i].0 !in s.fence
    ensures var s := Run(Initial(), events); !Authorizes(Turns.Run(s.turns, more).tables, s.claimed[i].0)
  {
    ReachableFence(events);
    hide Run;
    var s := Run(Initial(), events);
    var e := s.claimed[i].0;
    assert Settled(s, s.claimed[i]);
    RunTablesOk(s.turns, more);
    hide TablesOk, Declines, MakesFresh, Turns.Run, Stale;
    StaleStays(s.turns.tables, Turns.Run(s.turns, more).tables, e);
    IsStale(Turns.Run(s.turns, more).tables, e);
    if Authorizes(Turns.Run(s.turns, more).tables, e) {
      AuthorizesMeans(Turns.Run(s.turns, more).tables, e);
    }
  }

  lemma IsStale(t: Turns.Tables, event: Turns.EventId)
    ensures Stale(t, event) ==> !Turns.Valid(t, AuthorityFor(event))
  {
  }
}
