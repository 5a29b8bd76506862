/** How large the reminder outbox can get over every run, and when a restart still accepts it. */
module ReminderCapacity {
  import opened Options
  import opened ReminderOutbox
  import opened ReminderStore
  import opened ReminderRuns
  import opened ReminderInvariant

  predicate Bounded(rows: seq<Row>) {
    && LiveCount(rows) <= MAX_PENDING_REMINDERS && |rows| <= MAX_PENDING_REMINDERS + MAX_TOMBSTONES
    && forall x :: x in rows ==> RowAcceptable(x)
  }

  predicate StoresBounded(s: State) {
    Bounded(s.store.memory) && Bounded(s.store.disk)
  }

  lemma WriteIsBounded(rows: seq<Row>, r: Request)
    requires Bounded(rows) && Decide(rows, r).Write?
    ensures Bounded(Decide(rows, r).rows)
    ensures LiveCount(Decide(rows, r).rows) == LiveCount(rows) + 1
    ensures DeliveredCount(Decide(rows, r).rows) < MAX_TOMBSTONES
  {
    RetainedIn(rows);
    LiveCountConcat(Retained(rows), [NewRow(r)]);
    LiveCountOne(NewRow(r));
    hide LiveCount, RowOf, SafePayload;
  }

  /** Replacing a row keeps the number of rows, and the live ones unless it becomes delivered. */
  lemma UpdateCounts(rows: seq<Row>, id: Id, row: Row)
    requires RowOf(rows, id).Some? && RowOf(rows, id).value.Live?
    ensures |With(rows, id, row)| == |rows|
    ensures LiveCount(With(rows, id, row)) == LiveCount(rows) - if row.Live? then 0 else 1
    ensures Bounded(rows) && RowAcceptable(row) ==> Bounded(With(rows, id, row))
  {
    LiveCountUpdate(rows, IndexOf(rows, id), row);
    hide LiveCount, RowAcceptable;
    var rows' := With(rows, id, row);
    forall x | x in rows' ensures x in rows || x == row {
      var k :| 0 <= k < |rows'| && rows'[k] == x;
      assert k != IndexOf(rows, id) ==> x == rows[k];
    }
  }

  lemma ClaimWriteBounded(s: State, rest: Tick, row: Row, o: Outcome)
    requires StoresBounded(s) && LiveIn(s.store.memory, row)
    ensures StoresBounded(ClaimWrite(s, rest, row, o))
  {
    var claimed := ClaimedRow(s.settings, row, rest.now);
    assert RowAcceptable(row) ==> RowAcceptable(claimed) by { hide SafePayload; }
    assert Bounded(With(s.store.memory, row.id, claimed)) by { UpdateCounts(s.store.memory, row.id, claimed); }
    hide Bounded, RowOf, With, Fits, ClaimedRow, RowAcceptable;
  }

  lemma SettleWriteBounded(s: State, rest: Tick, row: Row, answer: Option<Receipt>, now: Instant, o: Outcome)
    requires StoresBounded(s) && LiveIn(s.store.memory, row)
    ensures StoresBounded(SettleWrite(s, rest, row, answer, now, o))
  {
    SettledIsBounded(s.store.memory, row, answer, now);
    hide Bounded, RowOf, With, Fits, Settled, RowAcceptable, LiveIn;
  }

  lemma SettledIsBounded(rows: seq<Row>, row: Row, answer: Option<Receipt>, now: Instant)
    requires Bounded(rows) && LiveIn(rows, row)
    ensures Bounded(With(rows, row.id, Settled(row, answer, now)))
  {
    var settled := Settled(row, answer, now);
    assert RowAcceptable(row) ==> RowAcceptable(settled) by { hide SafePayload; }
    hide RowAcceptable, With;
    UpdateCounts(rows, row.id, settled);
  }

  lemma ClaimBounded(s: State, o: Outcome)
    requires StoresBounded(s)
    ensures StoresBounded(ClaimNext(s, o))
  {
    hide StoresBounded, ClaimWrite;
    if s.tick.Some? && s.tick.value.awaiting.None? && s.tick.value.todo != [] {
      var t := s.tick.value;
      var row := RowOf(s.store.memory, t.todo[0]);
      if row.Some? && DueBy(row.value, t.now) {
        ClaimWriteBounded(s, t.(todo := t.todo[1..]), row.value, o);
      } else {
        hide RowOf, ClaimNext;
        TickIsUnbounded(s, Open(t.(todo := t.todo[1..])));
      }
    }
  }

  lemma TickIsUnbounded(s: State, tick: Option<Tick>)
    ensures StoresBounded(s.(tick := tick)) <==> StoresBounded(s)
  {
    hide Bounded;
  }

  lemma SettleBounded(s: State, receipt: Option<Receipt>, now: Instant, o: Outcome)
    requires StoresBounded(s)
    ensures StoresBounded(SettleNext(s, receipt, now, o))
  {
    hide StoresBounded, SettleWrite;
    if s.tick.Some? && s.tick.value.awaiting.Some? {
      var id := s.tick.value.awaiting.value;
      var row := RowOf(s.store.memory, id);
      var rest := s.tick.value.(awaiting := None);
      TickIsUnbounded(s, Open(rest));
      if row.Some? && row.value.Live? && row.value.inFlight {
        SettleWriteBounded(s, rest, row.value, if id in s.phone then receipt else None, now, o);
      }
      hide RowOf;
    }
  }

  lemma ScheduleBounded(s: State, r: Request, o: Outcome)
    requires StoresBounded(s)
    ensures StoresBounded(ScheduleNext(s, r, o))
  {
    if Decide(s.store.memory, r).Write? { WriteIsBounded(s.store.memory, r); }
    hide Bounded, Decide, Fits, Gone;
  }

  lemma NextBounded(s: State, e: Event)
    requires StoresBounded(s)
    ensures StoresBounded(Next(s, e))
  {
    if e.Schedule? { hide ScheduleNext, StoresBounded; ScheduleBounded(s, e.request, e.outcome); }
    else if e.Claim? { hide ClaimNext, StoresBounded; ClaimBounded(s, e.outcome); }
    else if e.Settle? { hide SettleNext, StoresBounded; SettleBounded(s, e.receipt, e.now, e.outcome); }
    else { hide Acceptable, DueIds, RowAcceptable; }
  }

  lemma {:induction false} RunBounded(s: State, events: seq<Event>)
    requires StoresBounded(s)
    ensures StoresBounded(Run(s, events))
    decreases |events|
  {
    hide Next, StoresBounded;
    if events != [] {
      RunBounded(s, events[..|events| - 1]);
      NextBounded(Run(s, events[..|events| - 1]), events[|events| - 1]);
    }
  }

  lemma ReachableBounded(settings: Settings, events: seq<Event>)
    ensures StoresBounded(Run(Initial(settings), events))
  {
    hide Run, RowAcceptable;
    RunBounded(Initial(settings), events);
  }

  lemma BoundedFits(rows: seq<Row>)
    requires Bounded(rows)
    ensures Fits(rows) && StoreSize(rows) <= 670_745
  {
    BoundedStoresFit(rows);
  }

  /** In every run memory and file hold at most 256 undelivered rows and 1024 rows in all, so the
      JSON document stays below 671 kB and no write is ever refused for its size. */
  lemma {:induction false} OutboxIsBounded(settings: Settings, events: seq<Event>, r: Request, o: Outcome)
    ensures var s := Run(Initial(settings), events);
            && LiveCount(s.store.memory) <= 256 && |s.store.memory| <= 1024
            && LiveCount(s.store.disk) <= 256 && |s.store.disk| <= 1024
            && StoreSize(s.store.memory) <= 670_745 && StoreSize(s.store.disk) <= 670_745
            && !ReplyTo(s, r, o).TooLarge?
  {
    var s := Run(Initial(settings), events);
    ReachableBounded(settings, events);
    hide Run;
    hide LiveCount, StoreSize, Fits, RowAcceptable;
    assert Decide(s.store.memory, r).Answer? ==> !Decide(s.store.memory, r).reply.TooLarge? by {
      hide RowOf, SafePayload, Retained;
    }
    hide Decide;
    BoundedFits(s.store.memory);
    BoundedFits(s.store.disk);
    if Decide(s.store.memory, r).Write? {
      WriteIsBounded(s.store.memory, r);
      BoundedFits(Decide(s.store.memory, r).rows);
    }
  }

  /** `rows'` has as many rows as `rows`, and `done` live ones have become delivered. */
  predicate SameRows(rows: seq<Row>, rows': seq<Row>, done: nat) {
    |rows'| == |rows| && LiveCount(rows') + done == LiveCount(rows)
  }

  lemma ClaimWriteConserves(s: State, rest: Tick, row: Row, o: Outcome)
    requires LiveIn(s.store.memory, row)
    ensures SameRows(s.store.memory, ClaimWrite(s, rest, row, o).store.memory, 0)
  {
    UpdateCounts(s.store.memory, row.id, ClaimedRow(s.settings, row, rest.now));
    hide LiveCount, RowOf, With, Fits, RetryDelay;
  }

  lemma SettleWriteConserves(s: State, rest: Tick, row: Row, answer: Option<Receipt>, now: Instant, o: Outcome)
    requires LiveIn(s.store.memory, row)
    ensures var rows := With(s.store.memory, row.id, Settled(row, answer, now));
            SameRows(s.store.memory, SettleWrite(s, rest, row, answer, now, o).store.memory,
                     if answer.Some? && o.Confirmed? && Fits(rows) then 1 else 0)
  {
    UpdateCounts(s.store.memory, row.id, Settled(row, answer, now));
    hide LiveCount, RowOf, With, Fits;
  }

  /** A tick neither adds nor drops rows: claims and deferrals keep every count, and an outcome
      turns at most the awaited live row into a delivered one, and only on a phone receipt. */
  lemma TicksConserveRows(s: State, e: Event)
    requires e.TickStart? || e.Claim? || e.Settle?
    ensures var rows := s.store.memory; var rows' := Next(s, e).store.memory;
            || SameRows(rows, rows', 0)
            || (SameRows(rows, rows', 1) && e.Settle? && e.receipt.Some? && e.outcome.Confirmed?)
  {
    hide LiveCount, ClaimWrite, SettleWrite, DueIds, Fits, With;
    if s.tick.Some? && e.Claim? && s.tick.value.todo != [] {
      var t := s.tick.value;
      var row := RowOf(s.store.memory, t.todo[0]);
      if row.Some? && row.value.Live? { ClaimWriteConserves(s, t.(todo := t.todo[1..]), row.value, e.outcome); }
    }
    if s.tick.Some? && e.Settle? && s.tick.value.awaiting.Some? {
      var id := s.tick.value.awaiting.value;
      var row := RowOf(s.store.memory, id);
      if row.Some? && row.value.Live? {
        SettleWriteConserves(s, s.tick.value.(awaiting := None), row.value, if id in s.phone then e.receipt else None, e.now, e.outcome);
      }
    }
    hide RowOf;
  }

  /** A restart accepts a reachable file exactly when it holds at most 768 delivered rows. */
  lemma {:induction false} RestartsExactlyWhen(settings: Settings, events: seq<Event>)
    ensures var s := Run(Initial(settings), events);
            && (Acceptable(s.store.disk) <==> DeliveredCount(s.store.disk) <= 768)
            && (Next(Next(s, Crash), Start).loaded <==> DeliveredCount(s.store.disk) <= 768)
  {
    var s := Run(Initial(settings), events);
    ReachableBounded(settings, events);
    Reachable(settings, events);
    hide Run;
    assert Unique(s.store.disk) by { hide HistoryOk, TickOk, Holds, OnlyAcked, Covers; }
    hide Inv;
    AcceptableExactlyWhen(s.store.disk);
    hide Acceptable, Bounded, DeliveredCount, Unique;
  }

  lemma AcceptableExactlyWhen(rows: seq<Row>)
    requires Bounded(rows) && Unique(rows)
    ensures Acceptable(rows) <==> DeliveredCount(rows) <= 768
  {
    BoundedFits(rows);
    hide LiveCount, Fits, RowAcceptable;
    assert forall i :: 0 <= i < |rows| ==> rows[i] in rows;
  }

  lemma ScheduledWrites(s: State, r: Request, o: Outcome)
    requires ReplyTo(s, r, o).Scheduled?
    ensures Decide(s.store.memory, r).Write? && Next(s, Schedule(r, o)).store.disk == Decide(s.store.memory, r).rows
  {
    hide RowOf, SafePayload, Retained, Fits, LiveCount;
  }

  /** A confirmed new reminder leaves a file that a restart accepts, whatever was there before. */
  lemma {:induction false} SchedulingRestoresTheLimit(settings: Settings, events: seq<Event>, r: Request, o: Outcome)
    ensures ReplyTo(Run(Initial(settings), events), r, o).Scheduled? ==>
              Acceptable(Run(Initial(settings), events + [Schedule(r, o)]).store.disk)
  {
    var s := Run(Initial(settings), events);
    var more := events + [Schedule(r, o)];
    assert more[..|more| - 1] == events;
    ReachableBounded(settings, events);
    RestartsExactlyWhen(settings, more);
    var s' := Next(s, Schedule(r, o));
    assert Run(Initial(settings), more) == s';
    hide Run, Fits, LiveCount, Bounded, Acceptable, DeliveredCount;
    if ReplyTo(s, r, o).Scheduled? {
      ScheduledWrites(s, r, o);
      hide Decide;
      WriteIsBounded(s.store.memory, r);
    }
  }
}
