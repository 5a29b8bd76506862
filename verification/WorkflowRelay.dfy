/** The relay object of workflow_relay.py: its replay ledger and its fence, updated in place. */
module WorkflowRelay {
  import opened ReplayLedger
  import Fence = WorkflowFence
  import Turns = TurnProtocol

  class Relay {
    var uses: Uses
    var fence: map<Turns.EventId, Fence.Destination>

    constructor ()
      ensures uses == map[] && fence == map[]
    {
      uses, fence := map[], map[];
    }

    /** Forget every capability that has expired, one after the other. */
    method Purge(now: int)
      modifies this`uses
      ensures uses == Unexpired(old(uses), now)
    {
      ghost var before := uses;
      var expired := set n | n in uses && uses[n].expires <= now;
      while expired != {}
        invariant expired <= uses.Keys
        invariant forall n :: n in uses <==> n in before && (n in expired || before[n].expires > now)
        invariant forall n :: n in uses ==> uses[n] == before[n]
        invariant forall n :: n in expired ==> before[n].expires <= now
        decreases |expired|
      {
        var n :| n in expired;
        uses := uses - {n};
        expired := expired - {n};
      }
    }

    /** `_claim_use`. */
    method Claim(c: ReplayLedger.Claim) returns (admitted: bool)
      modifies this`uses
      ensures Verdict(uses, admitted) == ClaimUse(old(uses), c)
    {
      hide Sequence, Unexpired;
      if !Checked(c) { return false; }
      Purge(c.now);
      var use;
      if c.nonce in uses {
        use := uses[c.nonce];
        if use.expires != c.expires || use.workflow != c.workflow { return false; }
      } else {
        if |uses| >= MAX_LIVE_CAPABILITIES || c.subcall != 1 { return false; }
        use := Use(c.expires, c.workflow, 0, map[]);
      }
      if c.subcall !in use.subcalls {
        if c.subcall != use.current + 1 { return false; }
        use := use.(subcalls := use.subcalls[c.subcall := Subcall(c.Print(), c.attempt)], current := c.subcall);
      } else {
        var previous := use.subcalls[c.subcall];
        if previous.fingerprint != c.Print() || c.attempt != previous.maxAttempt + 1 || c.attempt > MAX_ATTEMPTS {
          return false;
        }
        use := use.(subcalls := use.subcalls[c.subcall := previous.(maxAttempt := c.attempt)]);
      }
      uses := uses[c.nonce := use];
      admitted := true;
    }

    /** `_claim_task_turn_destination`, given what the authorizer says under the lock. */
    method ClaimDestination(ghost s: Fence.State, k: nat, event: Turns.EventId, destination: Fence.Destination,
                            authorized: bool, denied: bool) returns (same: bool)
      requires k < |s.requests| && s.requests[k].event == event && s.requests[k].destination == destination
      requires s.fence == fence && authorized == Fence.Authorizes(s.turns.tables, event)
      modifies this`fence
      ensures fence == Fence.ClaimNext(s, k, denied).fence
      ensures same == Fence.ClaimNext(s, k, denied).requests[k].stage.Claimed?
    {
      if !authorized || denied { return false; }
      if event in fence { return fence[event] == destination; }
      fence := map[];
      fence := fence[event := destination];
      same := true;
    }

    // -------------------------------------------------------------- whole runs

    /** Every trace of claims put to a new relay is a trace of the ledger; if it is timely, a subcall of a
        capability is admitted again only as its attempt 2, after its attempt 1, for the same call. */
    method ServeClaims(claims: seq<ReplayLedger.Claim>) returns (log: seq<ReplayLedger.Claim>)
      requires uses == map[]
      modifies this`uses
      ensures uses == Run(claims).uses && log == Run(claims).log
      ensures Timely(claims) ==> forall i, j :: 0 <= i < j < |log| ==> Successive(log[i], log[j])
    {
      hide ClaimUse;
      log := [];
      var n := 0;
      while n < |claims|
        invariant n <= |claims| && uses == Run(claims[..n]).uses && log == Run(claims[..n]).log
      {
        assert claims[..n + 1] == claims[..n] + [claims[n]];
        RunMore(claims[..n], claims[n]);
        var admitted := Claim(claims[n]);
        log := if admitted then log + [claims[n]] else log;
        n := n + 1;
      }
      assert claims[..|claims|] == claims;
      if Timely(claims) { ReachableInv(claims); }
    }

    /** One event at the fence; the turns are those of the adapter, which the relay only asks. */
    method Happen(ghost s: Fence.State, turns: Turns.State, requests: seq<Fence.Request>, e: Fence.Event)
      returns (turns': Turns.State, requests': seq<Fence.Request>, sent: seq<(Turns.EventId, Fence.Destination)>)
      requires s.turns == turns && s.requests == requests && s.fence == fence
      modifies this`fence
      ensures var s' := Fence.Next(s, e);
              s'.turns == turns' && s'.requests == requests' && s'.fence == fence && s'.sent == s.sent + sent
    {
      turns', requests', sent := turns, requests, [];
      hide Turns.Next, Fence.Authorizes;
      match e
      case Turn(event) => turns' := Turns.Next(turns, event);
      case Receive(event, destination) => requests' := requests + [Fence.Request(event, destination, Fence.Received)];
      case Authorize(k, denied) =>
        if k < |requests| && requests[k].stage.Received? {
          var authorized := !denied && Fence.Authorizes(turns.tables, requests[k].event);
          requests' := requests[k := requests[k].(stage := if authorized then Fence.Authorized else Fence.Closed)];
        }
      case Admit(k, admitted) =>
        if k < |requests| && requests[k].stage.Authorized? {
          requests' := requests[k := requests[k].(stage := if admitted then Fence.Admitted else Fence.Closed)];
        }
      case ClaimDestination(k, denied) =>
        if k < |requests| && requests[k].stage.Admitted? {
          var r := requests[k];
          var same := ClaimDestination(s, k, r.event, r.destination, Fence.Authorizes(turns.tables, r.event), denied);
          requests' := requests[k := r.(stage := if same then Fence.Claimed else Fence.Closed)];
        }
      case Send(k) =>
        if k < |requests| && requests[k].stage.Claimed? {
          requests' := requests[k := requests[k].(stage := Fence.Closed)];
          sent := [(requests[k].event, requests[k].destination)];
        }
    }

    /** Every run of requests and turn changes at a new relay is a run of the machine: what is sent for
        one turn has one destination, and the fence ends up with at most one turn. */
    method Serve(events: seq<Fence.Event>) returns (sent: seq<(Turns.EventId, Fence.Destination)>)
      requires fence == map[]
      modifies this`fence
      ensures fence == Fence.Run(Fence.Initial(), events).fence && sent == Fence.Run(Fence.Initial(), events).sent
      ensures forall i, j :: 0 <= i < |sent| && 0 <= j < |sent| && sent[i].0 == sent[j].0 ==> sent[i].1 == sent[j].1
      ensures forall e, f :: e in fence && f in fence ==> e == f
    {
      hide Fence.Next;
      sent := [];
      var turns, requests := Turns.Initial(), [];
      ghost var s := Fence.Initial();
      var n := 0;
      while n < |events|
        invariant n <= |events| && s == Fence.Run(Fence.Initial(), events[..n])
        invariant s.turns == turns && s.requests == requests && s.fence == fence && s.sent == sent
      {
        var more;
        turns, requests, more := Happen(s, turns, requests, events[n]);
        sent := sent + more;
        assert events[..n + 1][..n] == events[..n];
        s := Fence.Next(s, events[n]);
        n := n + 1;
      }
      assert events[..|events|] == events;
      Fence.FenceHoldsOneTurn(events);
      forall i, j | 0 <= i < |sent| && 0 <= j < |sent| && sent[i].0 == sent[j].0 ensures sent[i].1 == sent[j].1 {
        Fence.OneDestinationPerTurn(events, i, j);
      }
    }
  }
}
