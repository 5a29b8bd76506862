/** What a claim and its outcome write, over every run: the retries of a row back off. */
module ReminderUpdates {
  import opened Options
  import opened ReminderOutbox
  import opened ReminderStore
  import opened ReminderRuns
  import opened ReminderInvariant
  import opened ReminderCapacity

  // ---------------------------------------------------------------- how long every row waits

  /** A row never claimed is due when it was asked for; any other waits since its last claim. */
  predicate Waits(settings: Settings, row: Row) {
    row.Live? ==>
      if row.attempts == 0 then row.last.None? && row.next == row.due && !row.inFlight
      else row.last.Some? && row.next == row.last.value + RetryDelay(settings, row.attempts)
  }

  predicate AllWait(settings: Settings, rows: seq<Row>) {
    forall x :: x in rows ==> Waits(settings, x)
  }

  predicate Timed(settings: Settings, s: State) {
    s.settings == settings && AllWait(settings, s.store.memory) && AllWait(settings, s.store.disk)
  }

  lemma UpdateWaits(settings: Settings, rows: seq<Row>, id: Id, row: Row)
    requires AllWait(settings, rows) && Waits(settings, row)
    ensures AllWait(settings, With(rows, id, row))
  {
    hide Waits;
    var rows' := With(rows, id, row);
    forall x | x in rows' ensures x in rows || x == row {
      var k :| 0 <= k < |rows'| && rows'[k] == x;
      assert rows' == rows || k == IndexOf(rows, id) || x == rows[k];
    }
  }

  lemma WriteWaits(settings: Settings, rows: seq<Row>, r: Request)
    requires AllWait(settings, rows) && Decide(rows, r).Write?
    ensures AllWait(settings, Decide(rows, r).rows)
  {
    RetainedIn(rows);
    hide Retained, SafePayload, LiveCount;
  }

  lemma ScheduleTimed(settings: Settings, s: State, r: Request, o: Outcome)
    requires Timed(settings, s)
    ensures Timed(settings, ScheduleNext(s, r, o))
  {
    if Decide(s.store.memory, r).Write? { WriteWaits(settings, s.store.memory, r); }
    hide AllWait, Decide, Fits, Gone;
  }

  lemma ClaimWriteTimed(settings: Settings, s: State, rest: Tick, row: Row, o: Outcome)
    requires Timed(settings, s) && row.Live?
    ensures Timed(settings, ClaimWrite(s, rest, row, o))
  {
    var claimed := ClaimedRow(s.settings, row, rest.now);
    assert Waits(settings, claimed) by { hide RetryDelay; }
    UpdateWaits(settings, s.store.memory, row.id, claimed);
    hide AllWait, With, Fits, ClaimedRow;
  }

  lemma ClaimTimed(settings: Settings, s: State, o: Outcome)
    requires Timed(settings, s)
    ensures Timed(settings, ClaimNext(s, o))
  {
    hide ClaimWrite, AllWait;
    if s.tick.Some? && s.tick.value.awaiting.None? && s.tick.value.todo != [] {
      var t := s.tick.value;
      var row := RowOf(s.store.memory, t.todo[0]);
      if row.Some? && DueBy(row.value, t.now) { ClaimWriteTimed(settings, s, t.(todo := t.todo[1..]), row.value, o); }
    }
    hide RowOf;
  }

  lemma SettleWriteTimed(settings: Settings, s: State, rest: Tick, row: Row, answer: Option<Receipt>, now: Instant, o: Outcome)
    requires Timed(settings, s) && LiveIn(s.store.memory, row)
    ensures Timed(settings, SettleWrite(s, rest, row, answer, now, o))
  {
    var settled := Settled(row, answer, now);
    assert Waits(settings, row);
    assert Waits(settings, settled) by { hide RetryDelay; }
    UpdateWaits(settings, s.store.memory, row.id, settled);
    hide AllWait, With, Fits, Settled;
  }

  lemma SettleTimed(settings: Settings, s: State, receipt: Option<Receipt>, now: Instant, o: Outcome)
    requires Timed(settings, s)
    ensures Timed(settings, SettleNext(s, receipt, now, o))
  {
    hide SettleWrite, AllWait;
    if s.tick.Some? && s.tick.value.awaiting.Some? {
      var id := s.tick.value.awaiting.value;
      var row := RowOf(s.store.memory, id);
      if row.Some? && row.value.Live? && row.value.inFlight {
        SettleWriteTimed(settings, s, s.tick.value.(awaiting := None), row.value, if id in s.phone then receipt else None, now, o);
      }
    }
    hide RowOf;
  }

  lemma NextTimed(settings: Settings, s: State, e: Event)
    requires Timed(settings, s)
    ensures Timed(settings, Next(s, e))
  {
    if e.Schedule? { hide ScheduleNext, Timed; ScheduleTimed(settings, s, e.request, e.outcome); }
    else if e.Claim? { hide ClaimNext, Timed; ClaimTimed(settings, s, e.outcome); }
    else if e.Settle? { hide SettleNext, Timed; SettleTimed(settings, s, e.receipt, e.now, e.outcome); }
    else { hide Acceptable, DueIds, Waits; }
  }

  lemma {:induction false} ReachableTimed(settings: Settings, events: seq<Event>)
    ensures Timed(settings, Run(Initial(settings), events))
    decreases |events|
  {
    hide Next;
    if events != [] {
      ReachableTimed(settings, events[..|events| - 1]);
      hide Timed;
      NextTimed(settings, Run(Initial(settings), events[..|events| - 1]), events[|events| - 1]);
    }
  }

  // ---------------------------------------------------------------- claims

  function Larger(a: int, b: int): int { if a < b then b else a }
  function Smaller(a: int, b: int): int { if a < b then a else b }

  /** `after` is `before` claimed at `now`: the same reminder, one attempt more, and a wait that is the
      base at the first claim, twice the wait before at each of the next 16, never above the maximum,
      and from then on the same. */
  predicate ClaimedAt(settings: Settings, before: Row, after: Row, now: Instant) {
    var base := Larger(settings.retryBase, 50);
    var most := Larger(settings.retryMax, base);
    && before.Live? && after.Live?
    && after == before.(inFlight := true, updated := now, last := Some(now), attempts := after.attempts, next := after.next)
    && after.attempts == Smaller(before.attempts + 1, 9_007_199_254_740_991)
    && if before.attempts == 0 then after.next - now == base
       else before.last.Some?
            && var wait := before.next - before.last.value;
               after.next - now == if before.attempts < 17 then Smaller(2 * wait, most) else wait
  }

  lemma ClaimBacksOff(settings: Settings, row: Row, now: Instant)
    requires row.Live? && Waits(settings, row) && row.attempts <= MAX_ATTEMPT_COUNT
    ensures ClaimedAt(settings, row, ClaimedRow(settings, row, now), now)
  {
    hide RetryDelay;
    RetryDelayDoubles(settings, row.attempts);
    if row.attempts >= 17 { RetryDelayGrows(settings, 17, row.attempts); RetryDelayGrows(settings, 17, row.attempts + 1); }
  }

  /** A tick has a row to claim: the next id of the tick is a live row that is due by its time. */
  predicate Claimable(s: State) {
    && s.tick.Some? && s.tick.value.awaiting.None? && s.tick.value.todo != []
    && RowOf(s.store.memory, s.tick.value.todo[0]).Some?
    && var row := RowOf(s.store.memory, s.tick.value.todo[0]).value; row.Live? && row.next <= s.tick.value.now
  }

  /** A row of memory was replaced in both stores, and every other row of both is the row memory had. */
  ghost predicate Replaced(s: State, s': State, id: Id, row: Row) {
    && s'.store.disk == s'.store.memory && RowOf(s'.store.memory, id) == Some(row)
    && (forall other :: other != id ==> RowOf(s'.store.memory, other) == RowOf(s.store.memory, other))
  }

  lemma WithReplaces(rows: seq<Row>, id: Id, row: Row, other: Id)
    requires Unique(rows) && RowOf(rows, id).Some? && row.id == id
    ensures RowOf(With(rows, id, row), other) == if other == id then Some(row) else RowOf(rows, other)
  {
    RowOfUpdate(rows, IndexOf(rows, id), row, other);
  }

  lemma BoundedRow(rows: seq<Row>, id: Id)
    requires Bounded(rows) && RowOf(rows, id).Some?
    ensures RowOf(rows, id).value.attempts <= MAX_ATTEMPT_COUNT
  {
    hide LiveCount;
  }

  lemma ClaimedFits(s: State, row: Row, now: Instant)
    requires StoresBounded(s) && LiveIn(s.store.memory, row)
    ensures Fits(With(s.store.memory, row.id, ClaimedRow(s.settings, row, now)))
  {
    var claimed := ClaimedRow(s.settings, row, now);
    assert RowAcceptable(row) ==> RowAcceptable(claimed) by { hide SafePayload; }
    UpdateCounts(s.store.memory, row.id, claimed);
    BoundedFits(With(s.store.memory, row.id, claimed));
  }

  lemma ClaimWriteReplaces(s: State, rest: Tick, row: Row)
    requires StoresBounded(s) && Unique(s.store.memory) && LiveIn(s.store.memory, row)
    ensures var s' := ClaimWrite(s, rest, row, Confirmed);
            && Replaced(s, s', row.id, ClaimedRow(s.settings, row, rest.now))
            && s'.log == s.log + [Sent(row.id, Binding(row.payload, row.due))]
            && s'.tick == Some(rest.(awaiting := Some(row.id)))
  {
    var claimed := ClaimedRow(s.settings, row, rest.now);
    ClaimedFits(s, row, rest.now);
    forall other ensures RowOf(With(s.store.memory, row.id, claimed), other)
                         == if other == row.id then Some(claimed) else RowOf(s.store.memory, other) {
      WithReplaces(s.store.memory, row.id, claimed, other);
    }
    hide RowOf, With, Fits, ClaimedRow, Bounded;
  }

  /** A row that is tried in its turn, in a reachable state. */
  lemma ClaimableRow(settings: Settings, events: seq<Event>)
    requires Claimable(Run(Initial(settings), events))
    ensures var s := Run(Initial(settings), events); var row := RowOf(s.store.memory, s.tick.value.todo[0]).value;
            && s.settings == settings && StoresBounded(s) && Unique(s.store.memory) && LiveIn(s.store.memory, row)
            && row.id == s.tick.value.todo[0] && DueBy(row, s.tick.value.now)
            && ClaimedAt(settings, row, ClaimedRow(settings, row, s.tick.value.now), s.tick.value.now)
  {
    var s := Run(Initial(settings), events);
    Reachable(settings, events);
    ReachableBounded(settings, events);
    ReachableTimed(settings, events);
    hide Run, HistoryOk, TickOk, Holds, OnlyAcked, Covers, Bounded, Waits, ClaimedAt, RowOf;
    var row := RowOf(s.store.memory, s.tick.value.todo[0]).value;
    assert row in s.store.memory && row.id == s.tick.value.todo[0];
    assert Bounded(s.store.memory);
    BoundedRow(s.store.memory, row.id);
    ClaimBacksOff(settings, row, s.tick.value.now);
  }

  /** In every run a confirmed claim of a due row writes the row claimed at the time of the tick to
      memory and file, and only then calls its delivery, with the text and due time it was accepted with. */
  lemma {:induction false} ClaimsBackOff(settings: Settings, events: seq<Event>)
    requires Claimable(Run(Initial(settings), events))
    ensures var s := Run(Initial(settings), events); var s' := Next(s, Claim(Confirmed));
            var id := s.tick.value.todo[0]; var row := RowOf(s.store.memory, id).value;
            && (exists after :: ClaimedAt(settings, row, after, s.tick.value.now) && Replaced(s, s', id, after))
            && s'.log == s.log + [Sent(id, Binding(row.payload, row.due))]
            && s'.tick == Some(Tick(s.tick.value.now, s.tick.value.todo[1..], Some(id)))
  {
    hide Run, StoresBounded, ClaimedAt, RowOf, Replaced, ClaimedRow, ClaimWrite;
    ClaimableRow(settings, events);
    var s := Run(Initial(settings), events);
    var t := s.tick.value;
    ClaimWriteReplaces(s, t.(todo := t.todo[1..]), RowOf(s.store.memory, t.todo[0]).value);
  }

  lemma ClaimIsQuiet(s: State, o: Outcome)
    requires !Claimable(s) || !o.Confirmed?
    ensures ClaimNext(s, o).log == s.log
  {
    hide RowOf, With, Fits, Commit, ClaimedRow;
  }

  lemma SettleIsQuiet(s: State, receipt: Option<Receipt>, now: Instant, o: Outcome)
    ensures SettleNext(s, receipt, now, o).log == s.log
  {
    hide RowOf, With, Fits, Commit, Settled;
  }

  /** Nothing is delivered but by a confirmed claim of a due row. */
  lemma {:induction false} DeliversExactlyWhen(settings: Settings, events: seq<Event>, e: Event)
    requires !e.Schedule?
    ensures var s := Run(Initial(settings), events);
            Next(s, e).log != s.log <==> e.Claim? && e.outcome.Confirmed? && Claimable(s)
  {
    var s := Run(Initial(settings), events);
    hide Run, Claimable, ClaimNext, SettleNext, DueIds, Acceptable, ClaimedAt, Replaced;
    if e.Claim? && e.outcome.Confirmed? && Claimable(s) { ClaimsBackOff(settings, events); }
    else if e.Claim? { ClaimIsQuiet(s, e.outcome); }
    else if e.Settle? { SettleIsQuiet(s, e.receipt, e.now, e.outcome); }
  }

  // ---------------------------------------------------------------- outcomes

  lemma SettleWriteReplaces(s: State, rest: Tick, row: Row, answer: Option<Receipt>, now: Instant)
    requires StoresBounded(s) && Unique(s.store.memory) && LiveIn(s.store.memory, row)
    ensures var s' := SettleWrite(s, rest, row, answer, now, Confirmed);
            && Replaced(s, s', row.id, Settled(row, answer, now)) && s'.tick == Open(rest) && s'.log == s.log
  {
    var settled := Settled(row, answer, now);
    SettledIsBounded(s.store.memory, row, answer, now);
    BoundedFits(With(s.store.memory, row.id, settled));
    forall other ensures RowOf(With(s.store.memory, row.id, settled), other)
                         == if other == row.id then Some(settled) else RowOf(s.store.memory, other) {
      WithReplaces(s.store.memory, row.id, settled, other);
    }
    hide RowOf, With, Fits, Settled, Bounded;
  }

  /** The row whose delivery is awaited, in a reachable state. */
  lemma AwaitedRow(settings: Settings, events: seq<Event>)
    requires var t := Run(Initial(settings), events).tick; t.Some? && t.value.awaiting.Some?
    ensures var s := Run(Initial(settings), events); var id := s.tick.value.awaiting.value;
            && StoresBounded(s) && Unique(s.store.memory) && RowOf(s.store.memory, id).Some?
            && var row := RowOf(s.store.memory, id).value; row.id == id && LiveIn(s.store.memory, row) && row.inFlight
  {
    Reachable(settings, events);
    ReachableBounded(settings, events);
    hide Run, HistoryOk, Holds, OnlyAcked, Covers, Bounded, RowOf;
    AwaitedWasSent(Run(Initial(settings), events));
  }

  /** In every run the confirmed outcome of a delivery makes the awaited row delivered, when the phone
      that has shown it sent a receipt, and otherwise puts it back as it was claimed, to be tried again
      when its wait is over; no other row changes, and the tick goes on with the next id. */
  lemma {:induction false} OutcomesSettle(settings: Settings, events: seq<Event>, receipt: Option<Receipt>, now: Instant)
    requires var t := Run(Initial(settings), events).tick; t.Some? && t.value.awaiting.Some?
    ensures var s := Run(Initial(settings), events); var s' := Next(s, Settle(receipt, now, Confirmed));
            var id := s.tick.value.awaiting.value;
            && RowOf(s.store.memory, id).Some?
            && var row := RowOf(s.store.memory, id).value;
               && row.Live?
               && (if receipt.Some? && id in s.phone
                   then Replaced(s, s', id, Tombstone(id, row.payload, now, row.attempts, receipt.value))
                   else Replaced(s, s', id, row.(inFlight := false, updated := now)))
               && s'.log == s.log
               && s'.tick == if s.tick.value.todo == [] then None else Some(s.tick.value.(awaiting := None))
  {
    hide Run, StoresBounded, Replaced, RowOf, SettleNext, SettleWrite;
    AwaitedRow(settings, events);
    var s := Run(Initial(settings), events);
    var t := s.tick.value;
    var row := RowOf(s.store.memory, t.awaiting.value).value;
    var answer := if row.id in s.phone then receipt else None;
    SettleIsWrite(s, receipt, now, Confirmed, row, t.(awaiting := None), answer);
    SettleWriteReplaces(s, t.(awaiting := None), row, answer, now);
  }

  // ---------------------------------------------------------------- new reminders

  /** A line within its limits, without control characters. */
  predicate Plain(s: string, maxChars: nat, maxBytes: nat) {
    && 1 <= |s| <= maxChars && Utf8Size(s) <= maxBytes
    && forall i :: 0 <= i < |s| ==> s[i] >= ' ' && (s[i] < '\U{7F}' || s[i] > '\U{9F}')
  }

  /** The input can be taken: plain lines, and a due time that lies ahead, by ten years at most. */
  predicate Valid(r: Request) {
    && r.clean && Plain(r.payload.text, 160, 640) && Plain(r.payload.schedule, 128, 256)
    && r.due.Some? && r.now < r.due.value <= r.now + 316_224_000_000
  }

  lemma ValidExactly(r: Request)
    ensures Valid(r) <==> r.clean && SafePayload(r.payload) && r.due.Some? && r.now < r.due.value <= r.now + 316_224_000_000
  {
    LineExactly(r.payload.text, 160, 640);
    LineExactly(r.payload.schedule, 128, 256);
    hide Plain, SafeLine;
  }

  lemma LineExactly(s: string, maxChars: nat, maxBytes: nat)
    ensures Plain(s, maxChars, maxBytes) <==> SafeLine(s, maxChars, maxBytes)
  {
    hide Utf8Size;
  }

  /** A new reminder is refused for its input, or because 256 others wait already. */
  predicate Acceptance(s: State, r: Request) {
    Valid(r) && LiveCount(s.store.memory) < 256
  }

  /** Only delivered rows gave way to the new one, and no undelivered row changed. */
  ghost predicate MadeRoom(rows: seq<Row>, rows': seq<Row>, added: Row) {
    && RowOf(rows', added.id) == Some(added)
    && forall id :: id != added.id && RowOf(rows', id) != RowOf(rows, id) ==>
         RowOf(rows', id).None? && RowOf(rows, id).Some? && RowOf(rows, id).value.Tombstone?
  }

  lemma WriteMakesRoom(rows: seq<Row>, r: Request)
    requires Unique(rows) && Decide(rows, r).Write?
    ensures MadeRoom(rows, Decide(rows, r).rows,
                     Live(r.id, r.payload, r.due.value, false, r.now, r.now, 0, None, r.due.value))
  {
    forall id ensures RowOf(Decide(rows, r).rows, id) == (if id == r.id then Some(NewRow(r)) else RowOf(Retained(rows), id))
                      && (RowOf(Retained(rows), id) == RowOf(rows, id)
                          || (RowOf(Retained(rows), id).None? && RowOf(rows, id).Some? && RowOf(rows, id).value.Tombstone?))
    {
      RowOfRetained(rows, r.id);
      RowOfRetained(rows, id);
      RowOfAppend(Retained(rows), NewRow(r), id);
    }
    hide RowOf, Retained, SafePayload, LiveCount;
  }

  lemma DecidesOnNew(s: State, r: Request)
    requires RowOf(s.store.memory, r.id).None?
    ensures Decide(s.store.memory, r).Write? <==> Acceptance(s, r)
    ensures !Acceptance(s, r) ==>
              Decide(s.store.memory, r)
              == Answer(if Valid(r) then Full else InvalidInput)
  {
    hide SafePayload, LiveCount, Retained, Valid;
    ValidExactly(r);
  }

  lemma NewIsDue(rows: seq<Row>, r: Request)
    requires Decide(rows, r).Write?
    ensures r.due.Some?
  {
    hide RowOf, SafePayload, LiveCount, Retained;
  }

  lemma NewWrites(s: State, r: Request, o: Outcome)
    requires s.loaded && Bounded(s.store.memory) && Decide(s.store.memory, r).Write?
    ensures var rows := Decide(s.store.memory, r).rows;
            && r.due.Some? && ReplyTo(s, r, o) == (if o.Confirmed? then Scheduled(r.due.value) else WriteUnconfirmed)
            && Next(s, Schedule(r, o)).store == Store(if o.Confirmed? then rows else s.store.memory,
                                                      if o.FailedOld? then s.store.disk else rows)
  {
    hide Bounded, Fits, Gone, Decide;
    NewIsDue(s.store.memory, r);
    WriteIsBounded(s.store.memory, r);
    BoundedFits(Decide(s.store.memory, r).rows);
  }

  /** In every run a new reminder that is acceptable is written, due when it was asked for, and its due
      time is answered once the write is confirmed; any other is refused and changes nothing. */
  lemma {:induction false} NewRemindersAreAnswered(settings: Settings, events: seq<Event>, r: Request, o: Outcome)
    requires var s := Run(Initial(settings), events); s.loaded && RowOf(s.store.memory, r.id).None?
    ensures var s := Run(Initial(settings), events); var s' := Next(s, Schedule(r, o));
            if Acceptance(s, r) then
              var row := Live(r.id, r.payload, r.due.value, false, r.now, r.now, 0, None, r.due.value);
              && ReplyTo(s, r, o) == (if o.Confirmed? then Scheduled(r.due.value) else WriteUnconfirmed)
              && (if o.Confirmed? then MadeRoom(s.store.memory, s'.store.memory, row) else s'.store.memory == s.store.memory)
              && (if o.FailedOld? then s'.store.disk == s.store.disk else MadeRoom(s.store.memory, s'.store.disk, row))
            else
              && s' == s
              && ReplyTo(s, r, o) == if Valid(r) then Full else InvalidInput
  {
    var s := Run(Initial(settings), events);
    Reachable(settings, events);
    ReachableBounded(settings, events);
    hide Run, HistoryOk, TickOk, Holds, OnlyAcked, Covers, Acceptance, Decide, Bounded, RowOf, MadeRoom, SafePayload, Valid;
    DecidesOnNew(s, r);
    if Acceptance(s, r) {
      WriteMakesRoom(s.store.memory, r);
      NewWrites(s, r, o);
    }
    hide Gone, Fits;
  }

  // ---------------------------------------------------------------- everything else

  /** The write of a claim that is not confirmed: memory stays, and the file is old or new. */
  lemma UnconfirmedWrite(s: State, rest: Tick, row: Row, o: Outcome)
    requires StoresBounded(s) && Unique(s.store.memory) && LiveIn(s.store.memory, row) && !o.Confirmed?
    ensures var disk := if o.FailedNew? then With(s.store.memory, row.id, ClaimedRow(s.settings, row, rest.now)) else s.store.disk;
            ClaimWrite(s, rest, row, o) == s.(store := s.store.(disk := disk), tick := Open(rest))
  {
    hide RowOf, With, Fits, ClaimedRow, Bounded;
    ClaimedFits(s, row, rest.now);
  }

  /** In every run a claim whose write is not confirmed calls no delivery and leaves memory as it is; the
      file is as it was, or holds the claimed row, and the tick goes on with the next id. */
  lemma {:induction false} UnconfirmedClaimsAreSkipped(settings: Settings, events: seq<Event>, o: Outcome)
    requires Claimable(Run(Initial(settings), events)) && !o.Confirmed?
    ensures var s := Run(Initial(settings), events); var s' := Next(s, Claim(o)); var t := s.tick.value;
            && s' == s.(store := s.store.(disk := s'.store.disk), tick := if |t.todo| == 1 then None else Some(t.(todo := t.todo[1..])))
            && (o.FailedOld? ==> s'.store.disk == s.store.disk)
            && (o.FailedNew? ==>
                  && RowOf(s'.store.disk, t.todo[0]).Some?
                  && ClaimedAt(settings, RowOf(s.store.memory, t.todo[0]).value, RowOf(s'.store.disk, t.todo[0]).value, t.now))
  {
    hide Run, StoresBounded, ClaimedAt, RowOf, With, RetryDelay, ClaimWrite;
    ClaimableRow(settings, events);
    var s := Run(Initial(settings), events);
    var t := s.tick.value;
    var row := RowOf(s.store.memory, t.todo[0]).value;
    UnconfirmedWrite(s, t.(todo := t.todo[1..]), row, o);
    WithReplaces(s.store.memory, row.id, ClaimedRow(settings, row, t.now), row.id);
  }

  /** A tick whose next row is gone or not due any more goes on with the next id, without any write. */
  lemma {:induction false} OtherClaimsAreSkipped(s: State, o: Outcome)
    requires s.tick.Some? && s.tick.value.awaiting.None? && s.tick.value.todo != [] && !Claimable(s)
    ensures var t := s.tick.value;
            Next(s, Claim(o)) == s.(tick := if |t.todo| == 1 then None else Some(t.(todo := t.todo[1..])))
  {
    hide RowOf, ClaimWrite;
  }

  /** The phone shows a sent message once, and what it shows for an operation never changes. */
  lemma {:induction false} ShownOnce(s: State, e: Event, id: Id)
    ensures id in s.phone ==> id in Next(s, e).phone && Next(s, e).phone[id] == s.phone[id]
    ensures e.Arrive? && e.k < |s.log| && s.log[e.k].Sent? && s.log[e.k].id !in s.phone ==>
              Next(s, e) == s.(phone := s.phone[s.log[e.k].id := s.log[e.k].binding.payload.text])
  {
    hide RowOf, With, Fits, Commit, ClaimedRow, Settled, DueIds, Acceptable, Decide, Gone;
  }

  /** A scheduler that is stopped drops its tick but keeps what it holds, and starts no other; a crash also
      empties its memory.  One that has not loaded its file answers every call as inactive and writes nothing. */
  lemma {:induction false} StopsAndCrashes(s: State, r: Request, o: Outcome, now: Instant)
    ensures Next(s, Stop) == s.(running := false, tick := None)
    ensures !s.running ==> Next(s, TickStart(now)) == s
    ensures s.running && s.tick.Some? ==> Next(s, TickStart(now)) == s
    ensures Next(s, Crash) == s.(store := Store([], s.store.disk), loaded := false, running := false, tick := None)
    ensures !s.loaded ==> ReplyTo(s, r, o) == Inactive && Next(s, Schedule(r, o)) == s
  {
    hide DueIds, Decide;
  }

  /** Whatever file a start finds, what it installs has no operation twice and keeps every limit. */
  lemma {:induction false} StartsWithinLimits(s: State)
    requires !s.running && Next(s, Start).running
    ensures var rows := Next(s, Start).store.memory;
            && rows == s.store.disk == Next(s, Start).store.disk && Next(s, Start).loaded
            && Unique(rows) && LiveCount(rows) <= 256 && DeliveredCount(rows) <= 768 && StoreSize(rows) <= 1_048_576
            && forall x :: x in rows ==>
                 && x.attempts <= 9_007_199_254_740_991
                 && (x.Live? ==> Plain(x.payload.text, 160, 640) && Plain(x.payload.schedule, 128, 256))
  {
    var rows := s.store.disk;
    hide LiveCount, StoreSize, Plain, SafeLine;
    assert Acceptable(rows) && rows == Next(s, Start).store.memory;
    forall x | x in rows ensures RowAcceptable(x) {
      var i :| 0 <= i < |rows| && rows[i] == x;
      assert RowAcceptable(rows[i]);
    }
    forall x | x in rows && x.Live? ensures Plain(x.payload.text, 160, 640) && Plain(x.payload.schedule, 128, 256) {
      LineExactly(x.payload.text, 160, 640);
      LineExactly(x.payload.schedule, 128, 256);
    }
  }
}
