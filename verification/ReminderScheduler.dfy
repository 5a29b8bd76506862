/**
 The scheduler object of reminder_scheduler.py: it replaces its rows and the stored file step by
 step.  `model` is the state of the machine of `ReminderRuns`; every method keeps the object and
 its model in step, so what is proved of runs holds for every sequence of calls.
 */
module ReminderScheduler {
  import opened Options
  import opened ReminderOutbox
  import opened ReminderStore
  import opened ReminderRuns
  import opened ReminderInvariant
  import opened ReminderCapacity
  import opened ReminderFairness

  datatype CommitResult = Written | Unconfirmed | Oversized

  /** What a claim leads to: a delivery, nothing, or an exception of `_commit`. */
  datatype ClaimResult = Deliver(id: Id, text: string) | NotDue | ClaimFailed(result: CommitResult)

  function ResultOf(rows: seq<Row>, o: Outcome): CommitResult {
    if !Fits(rows) then Oversized else if o.Confirmed? then Written else Unconfirmed
  }

  /** Memory and file after a claim, and its result. */
  function ClaimedStore(settings: Settings, store: Store, id: Id, now: Instant, o: Outcome): Store {
    var row := RowOf(store.memory, id);
    if row.None? || !DueBy(row.value, now) then store
    else Commit(store, With(store.memory, id, ClaimedRow(settings, row.value, now)), o)
  }

  function ClaimAnswer(settings: Settings, rows: seq<Row>, id: Id, now: Instant, o: Outcome): ClaimResult {
    var row := RowOf(rows, id);
    if row.None? || !DueBy(row.value, now) then NotDue
    else
      var result := ResultOf(With(rows, id, ClaimedRow(settings, row.value, now)), o);
      if result.Written? then Deliver(id, row.value.payload.text) else ClaimFailed(result)
  }

  predicate IsInFlight(row: Option<Row>) {
    row.Some? && row.value.Live? && row.value.inFlight
  }

  /** Memory and file after the outcome of a delivery, and how its write ended. */
  function SettledStore(store: Store, id: Id, receipt: Option<Receipt>, now: Instant, o: Outcome): Store {
    var row := RowOf(store.memory, id);
    if !IsInFlight(row) then store
    else Commit(store, With(store.memory, id, Settled(row.value, receipt, now)), o)
  }

  function SettleAnswer(rows: seq<Row>, id: Id, receipt: Option<Receipt>, now: Instant, o: Outcome): CommitResult {
    var row := RowOf(rows, id);
    if !IsInFlight(row) then Written else ResultOf(With(rows, id, Settled(row.value, receipt, now)), o)
  }

  /** What happens around one delivery of a tick: how the claim is written, which reminders are
      scheduled while it is awaited, whether the message arrives, and how it is settled. */
  datatype Wait = Wait(claim: Outcome, meanwhile: seq<(Request, Outcome)>, arrives: bool,
                       receipt: Option<Receipt>, at: Instant, settle: Outcome)

  // ---------------------------------------------------------------- the object and the machine

  /** With bounded stores a claim is never too large, so it ends in step with the machine. */
  lemma ClaimWriteInStep(s: State, row: Row, rest: Tick, o: Outcome)
    requires LiveIn(s.store.memory, row) && Fits(With(s.store.memory, row.id, ClaimedRow(s.settings, row, rest.now)))
    ensures var s' := ClaimWrite(s, rest, row, o);
            && s'.store == Commit(s.store, With(s.store.memory, row.id, ClaimedRow(s.settings, row, rest.now)), o)
            && s'.tick == Open(if o.Confirmed? then rest.(awaiting := Some(row.id)) else rest)
            && s' == s.(store := s'.store, tick := s'.tick, bound := s'.bound, log := s'.log)
            && (o.Confirmed? ==> |s'.log| == |s.log| + 1 && s'.log[|s.log|].Sent? && s'.log[|s.log|].id == row.id)
  {
    hide Fits, With, RowOf, ClaimedRow;
  }

  lemma ClaimInStep(s: State, id: Id, rest: seq<Id>, now: Instant, o: Outcome)
    requires StoresBounded(s) && s.tick == Some(Tick(now, [id] + rest, None))
    ensures var s' := Next(s, Event.Claim(o)); var answer := ClaimAnswer(s.settings, s.store.memory, id, now, o);
            && s'.store == ClaimedStore(s.settings, s.store, id, now, o)
            && s'.tick == Open(Tick(now, rest, if answer.Deliver? then Some(id) else None))
            && s' == s.(store := s'.store, tick := s'.tick, bound := s'.bound, log := s'.log)
            && (answer.Deliver? ==> |s'.log| == |s.log| + 1 && s'.log[|s.log|].Sent? && s'.log[|s.log|].id == id)
  {
    var row := RowOf(s.store.memory, id);
    var t := Tick(now, rest, None);
    ClaimChooses(s, id, rest, now, o);
    if row.Some? && DueBy(row.value, now) {
      assert row.value.id == id;
      ClaimFits(s, row.value, now);
      ClaimWriteInStep(s, row.value, t, o);
      hide ClaimWrite, ClaimNext, StoresBounded, Fits, With, RowOf, ClaimedRow, Commit;
      assert ResultOf(With(s.store.memory, id, ClaimedRow(s.settings, row.value, now)), o).Written? == o.Confirmed?;
    } else {
      hide RowOf, ClaimNext, Open;
    }
  }

  lemma ClaimChooses(s: State, id: Id, rest: seq<Id>, now: Instant, o: Outcome)
    requires s.tick == Some(Tick(now, [id] + rest, None))
    ensures var row := RowOf(s.store.memory, id);
            ClaimNext(s, o) == if row.None? || !DueBy(row.value, now) then s.(tick := Open(Tick(now, rest, None)))
                               else ClaimWrite(s, Tick(now, rest, None), row.value, o)
  {
    hide RowOf, ClaimWrite;
    assert ([id] + rest)[1..] == rest;
  }

  lemma SettleInStep(s: State, id: Id, receipt: Option<Receipt>, now: Instant, o: Outcome)
    requires StoresBounded(s) && s.tick.Some? && s.tick.value.awaiting == Some(id) && (receipt.Some? ==> id in s.phone)
    ensures var s' := Next(s, Event.Settle(receipt, now, o));
            && s'.store == SettledStore(s.store, id, receipt, now, o)
            && s'.tick == Open(s.tick.value.(awaiting := None))
            && s' == s.(store := s'.store, tick := s'.tick, acked := s'.acked)
  {
    var row := RowOf(s.store.memory, id);
    if IsInFlight(row) { SettleFits(s, row.value, receipt, now); }
    hide StoresBounded, Fits, With, Settled;
  }

  lemma ArriveShows(s: State, k: nat)
    requires k < |s.log| && s.log[k].Sent?
    ensures var s' := Next(s, Arrive(k)); s' == s.(phone := s'.phone) && s.log[k].id in s'.phone
  {
  }

  /** The events of a tick after its start. */
  predicate InTick(e: Event) {
    e.Schedule? || e.Claim? || e.Arrive? || e.Settle?
  }

  lemma RunOne(s: State, events: seq<Event>, e: Event)
    ensures Run(s, events + [e]) == Next(Run(s, events), e)
  {
    assert (events + [e])[..|events|] == events;
    hide Next;
  }

  class Scheduler {
    const settings: Settings
    var entries: seq<Row>
    var file: seq<Row>
    var loaded: bool
    var running: bool

    constructor (settings: Settings)
      ensures entries == [] && file == [] && !loaded && !running && this.settings == settings
    {
      this.settings := settings;
      entries, file := [], [];
      loaded, running := false, false;
    }

    function Stored(): Store
      reads this
    {
      Store(entries, file)
    }

    /** The place of the row of `id`, or the number of rows. */
    method Find(id: Id) returns (i: nat)
      ensures i == IndexOf(entries, id)
      ensures RowOf(entries, id) == if i < |entries| then Some(entries[i]) else None
    {
      i := 0;
      while i < |entries| && entries[i].id != id
        invariant i <= |entries|
        invariant forall k :: 0 <= k < i ==> entries[k].id != id
      {
        i := i + 1;
      }
      assert i == IndexOf(entries, id);
    }

    method CommitRows(rows: seq<Row>, o: Outcome) returns (r: CommitResult)
      modifies this`entries, this`file
      ensures Stored() == Commit(old(Stored()), rows, o)
      ensures r == ResultOf(rows, o)
    {
      if StoreSize(rows) > MAX_STORE_BYTES {
        return Oversized;
      }
      match o
      case Confirmed =>
        file := rows;
        entries := rows;
        r := Written;
      case FailedOld =>
        r := Unconfirmed;
      case FailedNew =>
        file := rows;
        r := Unconfirmed;
    }

    method Schedule(r: Request, o: Outcome) returns (reply: Reply)
      modifies this`entries, this`file
      ensures Stored() == ScheduledStore(old(Stored()), loaded, r, o)
      ensures reply == ReplyFor(loaded, old(entries), r, o)
    {
      hide Fits, StoreSize, RowOf, Retained, SafePayload, IndexOf;
      if !loaded { return Inactive; }
      if !r.clean || !SafePayload(r.payload) { return InvalidInput; }
      var i := Find(r.id);
      if i < |entries| {
        if entries[i].payload != r.payload { return Conflict; }
        if entries[i].Tombstone? { return HistoricalDelivered(entries[i].status); }
        return HistoricalScheduled(entries[i].due);
      }
      if r.due.None? || r.due.value <= r.now || r.due.value - r.now > MAX_FUTURE { return InvalidInput; }
      var delivered := CountDelivered(entries);
      if |entries| - delivered >= MAX_PENDING_REMINDERS { return Full; }
      var retained := Evict(entries);
      var result := CommitRows(retained + [NewRow(r)], o);
      match result
      case Oversized => reply := TooLarge;
      case Unconfirmed => reply := WriteUnconfirmed;
      case Written => reply := Scheduled(r.due.value);
    }

    method DueHashes(now: Instant) returns (ids: seq<Id>)
      ensures ids == DueIds(entries, now)
    {
      var due := SortedDue(entries, now);
      if |due| > MAX_DUE_PER_TICK { due := due[..MAX_DUE_PER_TICK]; }
      ids := IdsOf(due);
    }

    method Claim(id: Id, now: Instant, o: Outcome) returns (r: ClaimResult)
      modifies this`entries, this`file
      ensures Stored() == ClaimedStore(settings, old(Stored()), id, now, o)
      ensures r == ClaimAnswer(settings, old(entries), id, now, o)
    {
      hide Fits, StoreSize, RowOf, IndexOf;
      var i := Find(id);
      if i == |entries| || !DueBy(entries[i], now) { return NotDue; }
      var row := entries[i];
      var attempts := if row.attempts + 1 < MAX_ATTEMPT_COUNT then row.attempts + 1 else MAX_ATTEMPT_COUNT;
      var claimed := row.(inFlight := true, updated := now, attempts := attempts, last := Some(now),
                          next := now + RetryDelay(settings, attempts));
      var result := CommitRows(entries[i := claimed], o);
      r := if result.Written? then Deliver(row.id, row.payload.text) else ClaimFailed(result);
    }

    /** `_defer` and `_complete`: without a receipt the row is pending again, with one it shrinks to
        its delivered record. */
    method Settle(id: Id, receipt: Option<Receipt>, now: Instant, o: Outcome) returns (r: CommitResult)
      modifies this`entries, this`file
      ensures Stored() == SettledStore(old(Stored()), id, receipt, now, o)
      ensures r == SettleAnswer(old(entries), id, receipt, now, o)
    {
      hide Fits, StoreSize, RowOf, IndexOf;
      var i := Find(id);
      if i == |entries| || !entries[i].Live? || !entries[i].inFlight { return Written; }
      var row := entries[i];
      match receipt
      case None =>
        r := CommitRows(entries[i := row.(inFlight := false, updated := now)], o);
      case Some(status) =>
        r := CommitRows(entries[i := Tombstone(row.id, row.payload, now, row.attempts, status)], o);
    }

    /** `start`, once the file has been read and checked. */
    method Start() returns (ok: bool)
      modifies this`entries, this`loaded, this`running
      ensures ok == (old(running) || Acceptable(file))
      ensures if old(running) || !Acceptable(file) then entries == old(entries) && loaded == old(loaded) && running == old(running)
              else entries == file && loaded && running
    {
      if running { return true; }
      if !Acceptable(file) { return false; }
      entries := file;
      loaded, running := true, true;
      ok := true;
    }

    /** The object is in the state of the machine. */
    predicate InStep(s: State)
      reads this
    {
      s.settings == settings && s.store == Stored() && s.loaded == loaded && s.running == running
    }

    /** The schedule calls that run while a delivery is awaited. */
    method ScheduleMeanwhile(ghost s: State, calls: seq<(Request, Outcome)>) returns (ghost events: seq<Event>)
      requires InStep(s)
      modifies this`entries, this`file
      ensures InStep(Run(s, events)) && Run(s, events).tick == s.tick && Run(s, events).phone == s.phone
      ensures s.log <= Run(s, events).log && forall k :: 0 <= k < |events| ==> InTick(events[k])
    {
      hide Next;
      events := [];
      assert Run(s, events) == s;
      var i := 0;
      while i < |calls|
        invariant i <= |calls|
        invariant InStep(Run(s, events)) && Run(s, events).tick == s.tick && Run(s, events).phone == s.phone
        invariant s.log <= Run(s, events).log && forall k :: 0 <= k < |events| ==> InTick(events[k])
      {
        ghost var e := Event.Schedule(calls[i].0, calls[i].1);
        ScheduleInStep(Run(s, events), calls[i].0, calls[i].1);
        var _ := Schedule(calls[i].0, calls[i].1);
        RunOne(s, events, e);
        events := events + [e];
        i := i + 1;
      }
    }

    /** One id of a tick: claim it, hand it over, let others schedule while the answer is awaited,
        and settle it. */
    method Attempt(ghost s: State, id: Id, ghost rest: seq<Id>, now: Instant, w: Wait) returns (done: bool, ghost events: seq<Event>)
      requires InStep(s) && Inv(s) && StoresBounded(s) && s.tick == Some(Tick(now, [id] + rest, None))
      modifies this`entries, this`file
      ensures InStep(Run(s, events)) && Run(s, events).tick == Open(Tick(now, rest, None))
      ensures forall k :: 0 <= k < |events| ==> InTick(events[k])
    {
      hide Inv, StoresBounded, Next, Fits, RowOf;
      done, events := false, [Event.Claim(w.claim)];
      RunOne(s, [], Event.Claim(w.claim));
      assert Run(s, []) == s && [] + [Event.Claim(w.claim)] == events;
      ClaimInStep(s, id, rest, now, w.claim);
      var claimed := Claim(id, now, w.claim);
      if !claimed.Deliver? { return; }
      ghost var s1 := Run(s, events);
      ghost var between := ScheduleMeanwhile(s1, w.meanwhile);
      RunAppend(s, events, between);
      events := events + between;
      if w.arrives {
        ghost var e := Arrive(|s.log|);
        ArriveShows(Run(s, events), |s.log|);
        RunOne(s, events, e);
        events := events + [e];
      }
      var receipt := if w.arrives then w.receipt else None;
      ghost var s2 := Run(s, events);
      RunKeeps(s, events);
      RunBounded(s, events);
      ghost var e := Event.Settle(receipt, w.at, w.settle);
      SettleInStep(s2, id, receipt, w.at, w.settle);
      var settled := Settle(id, receipt, w.at, w.settle);
      RunOne(s, events, e);
      events := events + [e];
      done := receipt.Some? && settled.Written?;
    }

    /** `run_due_once`: every id that was due when the tick began is tried once. */
    method RunDueOnce(ghost s: State, now: Instant, waits: seq<Wait>) returns (delivered: nat, ghost events: seq<Event>)
      requires InStep(s) && Inv(s) && StoresBounded(s) && running && s.tick.None?
      requires |waits| == MAX_DUE_PER_TICK
      modifies this`entries, this`file
      ensures InStep(Run(s, events)) && Run(s, events).tick.None?
      ensures |events| > 0 && events[0] == TickStart(now) && forall k :: 0 < k < |events| ==> InTick(events[k])
      ensures delivered <= |DueIds(old(entries), now)|
    {
      hide Inv, StoresBounded, DueIds, RowOf, Fits;
      events := [TickStart(now)];
      RunOne(s, [], TickStart(now));
      assert Run(s, []) == s && [] + [TickStart(now)] == events;
      var ids := DueHashes(now);
      delivered := 0;
      var i := 0;
      hide Next, Run;
      while i < |ids|
        invariant i <= |ids| && delivered <= i
        invariant InStep(Run(s, events)) && Run(s, events).tick == Open(Tick(now, ids[i..], None))
        invariant |events| > 0 && events[0] == TickStart(now) && forall k :: 0 < k < |events| ==> InTick(events[k])
      {
        RunKeeps(s, events);
        RunBounded(s, events);
        assert ids[i..] == [ids[i]] + ids[i + 1..];
        var done, more := Attempt(Run(s, events), ids[i], ids[i + 1..], now, waits[i]);
        RunAppend(s, events, more);
        events := events + more;
        if done { delivered := delivered + 1; }
        i := i + 1;
      }
    }
  }

  /** The number of delivered rows. */
  method CountDelivered(rows: seq<Row>) returns (n: nat)
    ensures n == DeliveredCount(rows)
  {
    n := 0;
    var i := 0;
    while i < |rows|
      invariant i <= |rows| && n == DeliveredCount(rows[..i])
    {
      if rows[i].Tombstone? { n := n + 1; }
      assert rows[..i + 1][..i] == rows[..i];
      i := i + 1;
    }
    assert rows[..|rows|] == rows;
  }

  /** The delivered row that completed first. */
  method FindOldest(rows: seq<Row>) returns (oldest: nat)
    requires exists k :: 0 <= k < |rows| && rows[k].Tombstone?
    ensures oldest == OldestIndex(rows)
  {
    var i := 0;
    oldest := |rows|;
    while i < |rows|
      invariant i <= |rows|
      invariant oldest == |rows| ==> forall k :: 0 <= k < i ==> rows[k].Live?
      invariant oldest < |rows| ==>
                  && oldest < i && rows[oldest].Tombstone?
                  && (forall k :: 0 <= k < i && rows[k].Tombstone? ==> rows[oldest].completed <= rows[k].completed)
                  && (forall k :: 0 <= k < oldest && rows[k].Tombstone? ==> rows[oldest].completed < rows[k].completed)
      invariant oldest <= |rows|
    {
      if rows[i].Tombstone? && (oldest == |rows| || rows[i].completed < rows[oldest].completed) {
        oldest := i;
      }
      i := i + 1;
    }
  }

  /** Make room for a new reminder. */
  method Evict(rows: seq<Row>) returns (retained: seq<Row>)
    ensures retained == Retained(rows)
  {
    retained := rows;
    var delivered := CountDelivered(rows);
    while delivered >= MAX_TOMBSTONES
      invariant delivered == DeliveredCount(retained) && Retained(retained) == Retained(rows)
      decreases |retained|
    {
      SomeDelivered(retained);
      var oldest := FindOldest(retained);
      LiveCountWithout(retained, oldest);
      retained := Without(retained, oldest);
      delivered := delivered - 1;
    }
  }

  lemma PlaceIs(rows: seq<Row>, row: Row, p: nat)
    requires InOrder(rows) && row.Live? && p <= |rows| && (forall k :: 0 <= k < p ==> !Before(row, rows[k]))
    requires p < |rows| ==> Before(row, rows[p])
    ensures p == PlaceFor(rows, row)
  {
    var q := PlaceFor(rows, row);
    assert q < |rows| ==> Before(row, rows[q]);
  }

  /** The due rows, sorted for the tick. */
  method SortedDue(rows: seq<Row>, now: Instant) returns (due: seq<Row>)
    ensures due == DueRows(rows, now)
  {
    due := [];
    var i := 0;
    while i < |rows|
      invariant i <= |rows| && due == DueRows(rows[..i], now)
    {
      assert rows[..i + 1][..i] == rows[..i];
      if DueBy(rows[i], now) {
        var p := 0;
        while p < |due| && !Before(rows[i], due[p])
          invariant p <= |due| && forall k :: 0 <= k < p ==> !Before(rows[i], due[k])
        {
          p := p + 1;
        }
        PlaceIs(due, rows[i], p);
        due := due[..p] + [rows[i]] + due[p..];
      }
      i := i + 1;
    }
    assert rows[..|rows|] == rows;
  }
}
