/** How every committed card came about: one attempt, in one hold of the lock, moved its own row
    from PREPARED to MUTATING and then committed the card. */
module KanbanTraces {
  import opened KanbanProtocol
  import opened KanbanInvariant
  import opened KanbanRuns

  ghost function After(events: seq<Event>, n: nat): State
    requires n <= |events|
  {
    Run(Initial(), events[..n])
  }

  /** Attempt `no` of `op` is in the lock after the first `n` events. */
  ghost predicate InLock(events: seq<Event>, n: nat, no: nat, op: OpId)
    requires n <= |events|
  {
    var s := After(events, n);
    s.attempt.Some? && s.attempt.value.no == no && s.attempt.value.op == op
  }

  /** The PREPARED row of `op` becomes a MUTATING one. */
  predicate Marks(w: World, w': World, op: OpId) {
    op in w.ledger && w.ledger[op].state.Prepared? && op in w'.ledger && w'.ledger[op].state.Mutating?
  }

  /** Event `n` turns the PREPARED row of `op` into a MUTATING one. */
  ghost predicate MovesRow(events: seq<Event>, n: nat, op: OpId)
    requires n < |events|
  {
    Marks(After(events, n).world, After(events, n + 1).world, op)
  }

  /** Event `n` commits the card `c`. */
  ghost predicate Commits(events: seq<Event>, n: nat, c: Creation)
    requires n < |events|
  {
    After(events, n + 1).world.created == After(events, n).world.created + [c]
  }

  /** Attempt `no` moved the row of `op` at event `n` and has not left the lock up to event `m`. */
  ghost predicate MovedInLock(events: seq<Event>, n: nat, m: nat, no: nat, op: OpId) {
    n < m <= |events| && MovesRow(events, n, op) && forall k :: n <= k <= m ==> InLock(events, k, no, op)
  }

  /** The attempt in the lock may still commit a new card. */
  ghost predicate Entitled(s: State) {
    s.attempt.Some? && Touching(s.attempt.value.place) && s.attempt.value.locals.mayCreate
  }

  // ---------------------------------------------------------------- one event

  /** A step into the places that may create comes from there, or moves the row. */
  lemma StepEntitles(w: World, a: Attempt, o: Oracle)
    requires AttemptOk(w, a)
    ensures var m := Step(w, a, o);
            m.Go? && Touching(m.place) && m.locals.mayCreate ==>
              (Touching(a.place) && a.locals.mayCreate) || Marks(w, m.world, a.op)
  {
    hide Made, MadeBy, MadeAs, MutateBoard;
    StepWrites(w, a, o);
  }

  lemma NextEntitles(s: State, e: Event)
    requires Inv(s) && Entitled(Next(s, e))
    ensures s.attempt.Some? && s.attempt.value.no == Next(s, e).attempt.value.no
            && s.attempt.value.op == Next(s, e).attempt.value.op
    ensures Entitled(s) || Marks(s.world, Next(s, e).world, s.attempt.value.op)
  {
    InvGives(s);
    hide Inv, CoreOk, AttemptOk, Step, Marks;
    if e.Advance? && s.attempt.Some? { StepEntitles(s.world, s.attempt.value, e.oracle); }
  }

  lemma CommitIsEntitled(w: World, a: Attempt)
    requires AttemptOk(w, a)
    ensures a.place.CommitBoard? && a.locals.createdNow ==> Touching(a.place) && a.locals.mayCreate
  {
    hide Made, MadeBy, MadeAs;
  }

  /** Only an entitled attempt commits a new card, and the card is its own. */
  lemma NextCommits(s: State, e: Event)
    requires Inv(s) && Next(s, e).world.created != s.world.created
    ensures Entitled(s) && |Next(s, e).world.created| == |s.world.created| + 1
    ensures var c := Next(s, e).world.created[|s.world.created|];
            Next(s, e).world.created == s.world.created + [c]
            && c.attempt == s.attempt.value.no && c.op == s.attempt.value.op
  {
    InvGives(s);
    hide Inv, CoreOk, AttemptOk, Step, WritesLedger, KeepsRights;
    if e.Advance? && s.attempt.Some? {
      StepWrites(s.world, s.attempt.value, e.oracle);
      CommitIsEntitled(s.world, s.attempt.value);
    }
  }

  // ---------------------------------------------------------------- whole runs

  lemma RunLast(events: seq<Event>)
    requires events != []
    ensures Run(Initial(), events) == Next(Run(Initial(), events[..|events| - 1]), events[|events| - 1])
    ensures events[..|events|] == events
  {
  }

  lemma PrefixKeeps(events: seq<Event>, n: nat, m: nat, no: nat, op: OpId)
    requires |events| > 0 && MovedInLock(events[..|events| - 1], n, m, no, op)
    ensures MovedInLock(events, n, m, no, op)
  {
    hide Run;
    var before := events[..|events| - 1];
    assert forall k :: 0 <= k <= |before| ==> before[..k] == events[..k];
    forall k | n <= k <= m ensures InLock(events, k, no, op) { assert InLock(before, k, no, op); }
  }

  lemma LastMoves(events: seq<Event>, s: State, s': State)
    requires |events| > 0 && s == After(events, |events| - 1) && s' == After(events, |events|)
    requires s.attempt.Some? && s'.attempt.Some? && s.attempt.value.no == s'.attempt.value.no
    requires s.attempt.value.op == s'.attempt.value.op && Marks(s.world, s'.world, s.attempt.value.op)
    ensures MovedInLock(events, |events| - 1, |events|, s.attempt.value.no, s.attempt.value.op)
  {
    hide Run, Marks;
  }

  /** An attempt that may create has moved its row itself and still holds that lock. */
  lemma {:induction false} EntitledMoved(events: seq<Event>) returns (n: nat)
    requires Entitled(Run(Initial(), events))
    ensures var a := Run(Initial(), events).attempt.value; MovedInLock(events, n, |events|, a.no, a.op)
    decreases |events|
  {
    assert events != [];
    var last := |events| - 1;
    var s := Run(Initial(), events[..last]);
    RunLast(events);
    Reachable(events[..last]);
    hide Run;
    if Entitled(s) {
      NextEntitles(s, events[last]);
      hide Inv, Next, Touching;
      n := EntitledMoved(events[..last]);
      PrefixKeeps(events, n, last, s.attempt.value.no, s.attempt.value.op);
    } else {
      NextEntitles(s, events[last]);
      hide Inv, Next, Touching, Marks;
      LastMoves(events, s, Run(Initial(), events));
      n := last;
    }
  }

  /** The card was committed by an attempt that, holding the lock, turned the PREPARED row of its
      operation into a MUTATING one and kept the lock from that event to the commit. */
  ghost predicate MadeInOneLock(events: seq<Event>, c: Creation) {
    exists n: nat, m: nat :: MovedInLock(events, n, m, c.attempt, c.op) && m < |events| && Commits(events, m, c)
  }

  lemma PrefixKeepsCard(events: seq<Event>, c: Creation)
    requires |events| > 0 && MadeInOneLock(events[..|events| - 1], c)
    ensures MadeInOneLock(events, c)
  {
    hide Run, MovedInLock;
    var before := events[..|events| - 1];
    var n: nat, m: nat :| MovedInLock(before, n, m, c.attempt, c.op) && m < |before| && Commits(before, m, c);
    PrefixKeeps(events, n, m, c.attempt, c.op);
    assert before[..m] == events[..m] && before[..m + 1] == events[..m + 1];
    assert Commits(events, m, c);
  }

  /** A card committed by the last event. */
  lemma LastCard(events: seq<Event>, c: Creation)
    requires |events| > 0 && Commits(events, |events| - 1, c)
    ensures MadeInOneLock(events, c)
  {
    var last := |events| - 1;
    RunLast(events);
    Reachable(events[..last]);
    hide Run;
    var s := Run(Initial(), events[..last]);
    NextCommits(s, events[last]);
    hide Inv, Next, MovedInLock;
    var n := EntitledMoved(events[..last]);
    PrefixKeeps(events, n, last, c.attempt, c.op);
    assert MovedInLock(events, n, last, c.attempt, c.op) && Commits(events, last, c);
  }

  /** Every card of every run was made by the attempt that moved the row itself. */
  lemma {:induction false} CreatorMovedItsRow(events: seq<Event>, i: nat)
    requires i < |Run(Initial(), events).world.created|
    ensures MadeInOneLock(events, Run(Initial(), events).world.created[i])
    decreases |events|
  {
    assert events != [];
    var last := |events| - 1;
    RunLast(events);
    Reachable(events[..last]);
    hide Run, MadeInOneLock;
    var s := Run(Initial(), events[..last]);
    var s' := Run(Initial(), events);
    if s'.world.created != s.world.created { NextCommits(s, events[last]); }
    hide Inv, Next;
    if i < |s.world.created| {
      CreatorMovedItsRow(events[..last], i);
      PrefixKeepsCard(events, s'.world.created[i]);
    } else { LastCard(events, s'.world.created[i]); }
  }
}
