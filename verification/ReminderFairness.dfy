/** No due reminder is passed over for more than 15 ticks. */
module ReminderFairness {
  import opened Options
  import opened ReminderOutbox
  import opened ReminderStore
  import opened ReminderRuns
  import opened ReminderInvariant
  import opened ReminderCapacity

  /** The scheduler keeps running, the clock does not go back before `from`, and claims are written.
      How other writes end and what the phone does is left open. */
  predicate Calm(e: Event, from: Instant) {
    match e
    case Schedule(r, _) => r.now >= from
    case TickStart(now) => now >= from
    case Claim(o) => o.Confirmed?
    case Arrive(_) => true
    case Settle(_, _, _) => true
    case Start => true
    case Stop => false
    case Crash => false
  }

  /** How many ticks begin in a run. */
  function Started(s: State, events: seq<Event>): nat {
    if events == [] then 0
    else
      var before := events[..|events| - 1];
      Started(s, before) + if Starts(Run(s, before), events[|events| - 1]) then 1 else 0
  }

  predicate Starts(s: State, e: Event) {
    e.TickStart? && s.running && s.tick.None?
  }

  predicate SentSince(log: seq<Entry>, from: nat, id: Id) {
    exists k :: from <= k < |log| && log[k].Sent? && log[k].id == id
  }

  // ---------------------------------------------------------------- who is ahead

  predicate IsAhead(other: Option<Row>, row: Row)
    requires row.Live?
  {
    other.Some? && other.value.Live? && Before(other.value, row)
  }

  /** The live rows that a tick attempts before `row`. */
  function Ahead(rows: seq<Row>, row: Row): (r: set<Id>)
    requires row.Live?
    ensures forall x :: x in r <==> IsAhead(RowOf(rows, x), row)
  {
    var r := set i | i in Ids(rows) && IsAhead(RowOf(rows, i), row);
    assert forall x :: RowOf(rows, x).Some? ==> x in Ids(rows);
    r
  }

  function LiveIds(rows: seq<Row>): set<Id> {
    set i | 0 <= i < |rows| && rows[i].Live? :: rows[i].id
  }

  lemma {:induction false} LiveIdsCount(rows: seq<Row>)
    ensures |LiveIds(rows)| <= LiveCount(rows)
  {
    if rows != [] {
      var n := |rows| - 1;
      LiveIdsCount(rows[..n]);
      var last := if rows[n].Live? then {rows[n].id} else {};
      assert LiveIds(rows) == LiveIds(rows[..n]) + last by {
        assert forall i :: 0 <= i < n ==> rows[..n][i] == rows[i];
      }
    }
  }

  lemma SubsetCount(a: set<Id>, b: set<Id>)
    requires a <= b
    ensures |a| <= |b|
  {
    assert b == a + (b - a);
  }

  lemma AheadIsBounded(rows: seq<Row>, row: Row)
    requires row.Live? && RowOf(rows, row.id) == Some(row)
    ensures |Ahead(rows, row)| + 1 <= LiveCount(rows)
  {
    LiveIdsCount(rows);
    var all := Ahead(rows, row) + {row.id};
    assert row.id !in Ahead(rows, row);
    forall x | x in all ensures x in LiveIds(rows) {
      var r := RowOf(rows, x).value;
      var i := IndexOf(rows, x);
    }
    SubsetCount(all, LiveIds(rows));
  }

  // ---------------------------------------------------------------- waiting

  predicate Distinct(ids: seq<Id>) {
    forall i, j :: 0 <= i < j < |ids| ==> ids[i] != ids[j]
  }

  function Todo(s: State): seq<Id> {
    if s.tick.Some? then s.tick.value.todo else []
  }

  /** A tick that passes `row` over works off rows that are ahead of it. */
  predicate PassedOver(s: State, row: Row, started: nat)
    requires row.Live?
  {
    && row.id !in Todo(s)
    && (forall i :: 0 <= i < |Todo(s)| ==> Todo(s)[i] in Ahead(s.store.memory, row))
    && |Ahead(s.store.memory, row)| + 16 * started <= 255 + |Todo(s)|
  }

  /** `row` is still waiting, unchanged, after `started` ticks. */
  predicate Waiting(s: State, row: Row, from: Instant, started: nat)
    requires row.Live?
  {
    && s.running && row.next <= from && RowOf(s.store.memory, row.id) == Some(row)
    && Distinct(Todo(s))
    && (s.tick.Some? ==> s.tick.value.now >= from)
    && (s.tick.Some? && s.tick.value.awaiting.Some? ==>
          var id := s.tick.value.awaiting.value;
          id != row.id && id !in Todo(s) && id !in Ahead(s.store.memory, row))
    && (row.id in Todo(s) || PassedOver(s, row, started))
  }

  /** Rows of other ids changed, and none of them is ahead now that was not before. */
  lemma AheadSame(rows: seq<Row>, rows': seq<Row>, row: Row, id: Id)
    requires row.Live? && (forall x :: x != id ==> IsAhead(RowOf(rows', x), row) == IsAhead(RowOf(rows, x), row))
    requires !IsAhead(RowOf(rows', id), row)
    ensures Ahead(rows', row) == Ahead(rows, row) - {id}
  {
  }

  // ---------------------------------------------------------------- one step

  /** A due row is picked, or 16 rows that are ahead of it are. */
  lemma PickedOrAhead(rows: seq<Row>, row: Row, now: Instant)
    requires Unique(rows) && RowOf(rows, row.id) == Some(row) && DueBy(row, now)
    ensures var ids := DueIds(rows, now);
            && ids != [] && Distinct(ids)
            && (row.id in ids || (|ids| == 16 && forall i :: 0 <= i < |ids| ==> ids[i] in Ahead(rows, row)))
  {
    var ids := DueIds(rows, now);
    DueIdsMeans(rows, now);
    assert row in rows;
    hide DueIds, Unique;
    if row.id !in ids {
      forall i | 0 <= i < |ids| ensures ids[i] in Ahead(rows, row) {
        assert DueBy(RowOf(rows, ids[i]).value, now);
      }
    }
  }

  lemma TickStartWaits(s: State, row: Row, from: Instant, started: nat, now: Instant)
    requires Unique(s.store.memory) && row.Live? && Waiting(s, row, from, started)
    requires s.tick.None? && now >= from
    ensures Waiting(TickStartNext(s, now), row, from, started + 1)
  {
    PickedOrAhead(s.store.memory, row, now);
    hide DueIds, Unique, RowOf, Ahead;
  }

  lemma ScheduleWaits(s: State, row: Row, from: Instant, started: nat, r: Request, o: Outcome)
    requires Unique(s.store.memory) && row.Live? && Waiting(s, row, from, started) && r.now >= from
    ensures Waiting(ScheduleNext(s, r, o), row, from, started)
  {
    var s' := ScheduleNext(s, r, o);
    var rows := s.store.memory;
    if s'.store.memory != rows {
      var rows' := s'.store.memory;
      WriteIsNotAhead(rows, r, row);
      WriteKeepsLive(rows, r, row.id);
      assert rows' == Decide(rows, r).rows by { hide RowOf, Retained, SafePayload, Fits; }
      hide Decide, Retained, Fits, RowOf, Ahead, Gone, ScheduleNext;
      ScheduleKeepsTickAsIs(s, r, o);
    } else {
      hide Decide, Retained, Fits, RowOf, Ahead, Gone;
    }
  }

  lemma ScheduleKeepsTickAsIs(s: State, r: Request, o: Outcome)
    ensures ScheduleNext(s, r, o).tick == s.tick && ScheduleNext(s, r, o).running == s.running
  {
    hide Decide, Commit, Gone, Fits;
  }

  /** A new reminder is due later than everything that is due now. */
  lemma WriteIsNotAhead(rows: seq<Row>, r: Request, row: Row)
    requires Unique(rows) && Decide(rows, r).Write? && row.Live? && row.next <= r.now
    ensures Ahead(Decide(rows, r).rows, row) == Ahead(rows, row)
  {
    var rows' := Decide(rows, r).rows;
    WriteSucceeds(rows, r);
    forall x | x != r.id ensures IsAhead(RowOf(rows', x), row) == IsAhead(RowOf(rows, x), row) {
      RowOfRetained(rows, r.id);
      RowOfRetained(rows, x);
      RowOfAppend(Retained(rows), NewRow(r), x);
    }
    AheadSame(rows, rows', row, r.id);
  }

  /** A claimed row is due again only later, so it is not ahead any more. */
  lemma ClaimLeaves(settings: Settings, rows: seq<Row>, other: Row, row: Row, now: Instant)
    requires Unique(rows) && LiveIn(rows, other) && row.Live? && row.next <= now && row.id != other.id
    ensures var rows' := With(rows, other.id, ClaimedRow(settings, other, now));
            && Ahead(rows', row) == Ahead(rows, row) - {other.id}
            && RowOf(rows', row.id) == RowOf(rows, row.id)
  {
    var claimed := ClaimedRow(settings, other, now);
    RetryDelayGrows(settings, claimed.attempts, claimed.attempts);
    UpdateElsewhere(rows, other, claimed, row);
  }

  /** Replacing a row by one that is not ahead takes at most that row out. */
  lemma UpdateElsewhere(rows: seq<Row>, other: Row, other': Row, row: Row)
    requires Unique(rows) && LiveIn(rows, other) && other'.id == other.id && row.Live? && row.id != other.id
    requires !IsAhead(Some(other'), row)
    ensures Ahead(With(rows, other.id, other'), row) == Ahead(rows, row) - {other.id}
    ensures RowOf(With(rows, other.id, other'), row.id) == RowOf(rows, row.id)
  {
    var rows' := With(rows, other.id, other');
    forall x ensures RowOf(rows', x) == if x == other.id then Some(other') else RowOf(rows, x) {
      RowOfUpdate(rows, IndexOf(rows, other.id), other', x);
    }
    hide With, RowOf;
    AheadSame(rows, rows', row, other.id);
  }

  /** Waiting looks only at the ids still to try, at who is ahead, and at the row itself. */
  lemma StillWaits(s: State, s': State, row: Row, from: Instant, started: nat)
    requires row.Live? && Waiting(s, row, from, started) && s'.running && Todo(s') == Todo(s)
    requires s'.tick.Some? ==> s.tick.Some? && s'.tick.value.now == s.tick.value.now && s'.tick.value.awaiting.None?
    requires Ahead(s'.store.memory, row) == Ahead(s.store.memory, row)
    requires RowOf(s'.store.memory, row.id) == RowOf(s.store.memory, row.id)
    ensures Waiting(s', row, from, started)
  {
    hide RowOf, Ahead, Distinct;
  }

  /** One id of the tick is done with, and its row is no longer ahead. */
  lemma WaitsOn(s: State, s': State, row: Row, from: Instant, started: nat)
    requires row.Live? && Waiting(s, row, from, started) && s'.running && s.tick.Some? && s'.tick.Some?
    requires Todo(s) != [] && Todo(s)[0] != row.id && Todo(s') == Todo(s)[1..]
    requires s'.tick.value.now == s.tick.value.now && s'.tick.value.awaiting == Some(Todo(s)[0])
    requires Ahead(s'.store.memory, row) == Ahead(s.store.memory, row) - {Todo(s)[0]}
    requires RowOf(s'.store.memory, row.id) == RowOf(s.store.memory, row.id)
    ensures Waiting(s', row, from, started)
  {
    hide RowOf, Ahead, Distinct;
    DistinctRest(Todo(s));
  }

  /** The claim of another row, after which `row` still waits. */
  lemma ClaimWaits(s: State, row: Row, from: Instant, started: nat, other: Row)
    requires Unique(s.store.memory) && row.Live? && Waiting(s, row, from, started)
    requires s.tick.Some? && s.tick.value.awaiting.None? && s.tick.value.todo != [] && s.tick.value.todo[0] == other.id
    requires LiveIn(s.store.memory, other) && other.id != row.id
    requires Fits(With(s.store.memory, other.id, ClaimedRow(s.settings, other, s.tick.value.now)))
    ensures var t := s.tick.value;
            Waiting(ClaimWrite(s, t.(todo := t.todo[1..]), other, Confirmed), row, from, started)
  {
    var t := s.tick.value;
    ClaimLeaves(s.settings, s.store.memory, other, row, t.now);
    var s' := ClaimWrite(s, t.(todo := t.todo[1..]), other, Confirmed);
    assert s.running;
    hide RowOf, Ahead, Unique, With, Fits, ClaimedRow, Waiting;
    WaitsOn(s, s', row, from, started);
  }

  lemma DistinctRest(ids: seq<Id>)
    requires Distinct(ids) && ids != []
    ensures Distinct(ids[1..]) && ids[0] !in ids[1..]
    ensures forall x :: x in ids <==> x == ids[0] || x in ids[1..]
  {
    assert ids == [ids[0]] + ids[1..];
  }

  /** An id whose row is not due is dropped; it was not one that `row` waits for. */
  lemma DropWaits(s: State, row: Row, from: Instant, started: nat)
    requires row.Live? && Waiting(s, row, from, started)
    requires s.tick.Some? && s.tick.value.awaiting.None? && s.tick.value.todo != []
    requires var first := RowOf(s.store.memory, s.tick.value.todo[0]);
             first.None? || !DueBy(first.value, s.tick.value.now)
    ensures var t := s.tick.value; Waiting(s.(tick := Open(t.(todo := t.todo[1..]))), row, from, started)
  {
    var t := s.tick.value;
    assert t.todo[0] !in Ahead(s.store.memory, row);
    assert t.todo[0] == Todo(s)[0];
    assert row.id in t.todo;
    assert row.id != t.todo[0];
    hide RowOf, Ahead, Distinct;
    DistinctRest(t.todo);
    assert row.id in t.todo[1..];
  }

  lemma ClaimFits(s: State, row: Row, now: Instant)
    requires StoresBounded(s) && LiveIn(s.store.memory, row)
    ensures Fits(With(s.store.memory, row.id, ClaimedRow(s.settings, row, now)))
  {
    var claimed := ClaimedRow(s.settings, row, now);
    assert RowAcceptable(row) ==> RowAcceptable(claimed) by { hide SafePayload; }
    UpdateCounts(s.store.memory, row.id, claimed);
    BoundedFits(With(s.store.memory, row.id, claimed));
  }

  /** A confirmed claim either calls the delivery of `row` or leaves it waiting. */
  lemma ClaimNextWaits(s: State, row: Row, from: Instant, started: nat)
    requires Unique(s.store.memory) && StoresBounded(s) && row.Live? && Waiting(s, row, from, started)
    ensures var s' := ClaimNext(s, Confirmed);
            Waiting(s', row, from, started) || s'.log == s.log + [Sent(row.id, Binding(row.payload, row.due))]
  {
    if s.tick.Some? && s.tick.value.awaiting.None? && s.tick.value.todo != [] {
      var t := s.tick.value;
      var first := RowOf(s.store.memory, t.todo[0]);
      hide Unique, StoresBounded, Fits, With;
      if first.None? || !DueBy(first.value, t.now) {
        DropWaits(s, row, from, started);
      } else {
        ClaimFits(s, first.value, t.now);
        assert first.value.id == t.todo[0];
        if first.value.id == row.id {
          hide Waiting, ClaimedRow;
          assert first == RowOf(s.store.memory, row.id);
        } else {
          hide ClaimWrite;
          ClaimWaits(s, row, from, started, first.value);
          hide Waiting, RowOf;
        }
      }
    }
  }

  /** Settling another row does not put it ahead. */
  lemma SettleLeaves(rows: seq<Row>, other: Row, row: Row, answer: Option<Receipt>, now: Instant)
    requires Unique(rows) && LiveIn(rows, other) && row.Live? && row.id != other.id && other.id !in Ahead(rows, row)
    ensures var rows' := With(rows, other.id, Settled(other, answer, now));
            Ahead(rows', row) == Ahead(rows, row) && RowOf(rows', row.id) == RowOf(rows, row.id)
  {
    assert !IsAhead(RowOf(rows, other.id), row);
    var settled := Settled(other, answer, now);
    UpdateElsewhere(rows, other, settled, row);
    assert Ahead(rows, row) - {other.id} == Ahead(rows, row);
  }

  lemma SettleWriteWaits(s: State, row: Row, from: Instant, started: nat, other: Row, answer: Option<Receipt>, now: Instant, o: Outcome)
    requires Unique(s.store.memory) && StoresBounded(s) && row.Live? && Waiting(s, row, from, started)
    requires s.tick.Some? && s.tick.value.awaiting == Some(other.id) && LiveIn(s.store.memory, other)
    ensures Waiting(SettleWrite(s, s.tick.value.(awaiting := None), other, answer, now, o), row, from, started)
  {
    SettleFits(s, other, answer, now);
    SettleLeaves(s.store.memory, other, row, answer, now);
    var s' := SettleWrite(s, s.tick.value.(awaiting := None), other, answer, now, o);
    assert s.running;
    hide RowOf, Ahead, With, Fits, StoresBounded, Settled, Unique, Waiting;
    StillWaits(s, s', row, from, started);
  }

  lemma SettleWaits(s: State, row: Row, from: Instant, started: nat, receipt: Option<Receipt>, now: Instant, o: Outcome)
    requires Inv(s) && StoresBounded(s) && row.Live? && Waiting(s, row, from, started)
    ensures Waiting(SettleNext(s, receipt, now, o), row, from, started)
  {
    if s.tick.Some? && s.tick.value.awaiting.Some? {
      AwaitedWasSent(s);
      var other := RowOf(s.store.memory, s.tick.value.awaiting.value).value;
      var answer := if other.id in s.phone then receipt else None;
      SettleIsWrite(s, receipt, now, o, other, s.tick.value.(awaiting := None), answer);
      hide SettleNext, SettleWrite, Waiting, StoresBounded, HistoryOk, TickOk;
      SettleWriteWaits(s, row, from, started, other, answer, now, o);
    }
  }

  lemma SettleFits(s: State, row: Row, answer: Option<Receipt>, now: Instant)
    requires StoresBounded(s) && LiveIn(s.store.memory, row)
    ensures Fits(With(s.store.memory, row.id, Settled(row, answer, now)))
  {
    var settled := Settled(row, answer, now);
    assert RowAcceptable(row) ==> RowAcceptable(settled) by { hide SafePayload; }
    UpdateCounts(s.store.memory, row.id, settled);
    BoundedFits(With(s.store.memory, row.id, settled));
  }

  lemma StepWaits(s: State, e: Event, row: Row, from: Instant, started: nat)
    requires Inv(s) && StoresBounded(s) && row.Live? && Waiting(s, row, from, started) && Calm(e, from)
    ensures var s' := Next(s, e);
            || Waiting(s', row, from, started + if Starts(s, e) then 1 else 0)
            || (|s'.log| > |s.log| && s'.log[|s'.log| - 1] == Sent(row.id, Binding(row.payload, row.due)))
  {
    hide Inv, Unique, StoresBounded, Waiting, ScheduleNext, TickStartNext, ClaimNext, SettleNext;
    MemoryIsUnique(s);
    if e.Schedule? { ScheduleWaits(s, row, from, started, e.request, e.outcome); }
    else if e.TickStart? {
      if Starts(s, e) { TickStartWaits(s, row, from, started, e.now); } else { NoTickStarts(s, row, from, started, e); }
    } else if e.Claim? { ClaimNextWaits(s, row, from, started); }
    else if e.Settle? { SettleWaits(s, row, from, started, e.receipt, e.now, e.outcome); }
    else { OtherWaits(s, e, row, from, started); }
  }

  lemma MemoryIsUnique(s: State)
    requires Inv(s)
    ensures Unique(s.store.memory)
  {
    hide HistoryOk, TickOk, Holds, OnlyAcked, Covers, Unique;
  }

  /** A tick that does not start leaves everything as it is. */
  lemma NoTickStarts(s: State, row: Row, from: Instant, started: nat, e: Event)
    requires e.TickStart? && !Starts(s, e) && row.Live? && Waiting(s, row, from, started)
    ensures Waiting(Next(s, e), row, from, started)
  {
    hide Waiting;
  }

  /** A message arrives or a start finds the scheduler running. */
  lemma OtherWaits(s: State, e: Event, row: Row, from: Instant, started: nat)
    requires row.Live? && Waiting(s, row, from, started) && Calm(e, from)
    requires !e.Schedule? && !e.TickStart? && !e.Claim? && !e.Settle?
    ensures Waiting(Next(s, e), row, from, started)
  {
    hide RowOf, Ahead, Distinct, Acceptable;
  }

  // ---------------------------------------------------------------- every run

  lemma LogOnlyGrows(s: State, e: Event)
    ensures s.log <= Next(s, e).log
  {
    hide Next;
    if e.Schedule? { ScheduleInStep(s, e.request, e.outcome); } else { OthersOnlySend(s, e); }
  }

  lemma {:induction false} WaitsOrSent(s: State, events: seq<Event>, row: Row, from: Instant)
    requires Inv(s) && StoresBounded(s) && row.Live? && Waiting(s, row, from, 0)
    requires forall k :: 0 <= k < |events| ==> Calm(events[k], from)
    ensures var s' := Run(s, events);
            s.log <= s'.log && (Waiting(s', row, from, Started(s, events)) || SentSince(s'.log, |s.log|, row.id))
    decreases |events|
  {
    hide Inv, StoresBounded, Waiting, Calm, Next, Starts;
    if events != [] {
      var n := |events| - 1;
      var t := Run(s, events[..n]);
      WaitsOrSent(s, events[..n], row, from);
      RunKeeps(s, events[..n]);
      RunBounded(s, events[..n]);
      LogOnlyGrows(t, events[n]);
      if SentSince(t.log, |s.log|, row.id) {
        var k :| |s.log| <= k < |t.log| && t.log[k].Sent? && t.log[k].id == row.id;
        assert Next(t, events[n]).log[k] == t.log[k];
      } else {
        StepWaits(t, events[n], row, from, Started(s, events[..n]));
      }
    }
  }

  /** A reminder that is due, in a scheduler between two ticks, is handed over by the time 16 ticks
      have begun and the last of them is over: however many others are due, whatever is scheduled
      meanwhile, whatever the phone does and however all writes but the claims end. */
  lemma {:induction false} NoStarvation(settings: Settings, before: seq<Event>, after: seq<Event>, id: Id, from: Instant)
    requires var s := Run(Initial(settings), before);
             && s.running && s.tick.None?
             && RowOf(s.store.memory, id).Some? && DueBy(RowOf(s.store.memory, id).value, from)
             && Started(s, after) >= 16 && Run(s, after).tick.None?
    requires forall k :: 0 <= k < |after| ==> Calm(after[k], from)
    ensures var s := Run(Initial(settings), before);
            SentSince(Run(s, after).log, |s.log|, id)
  {
    var s := Run(Initial(settings), before);
    var row := RowOf(s.store.memory, id).value;
    Reachable(settings, before);
    ReachableBounded(settings, before);
    AheadIsBounded(s.store.memory, row);
    hide Run, Inv, RowOf, Ahead, LiveCount, Started;
    assert Waiting(s, row, from, 0);
    WaitsOrSent(s, after, row, from);
  }
}
