/** What the reminder outbox promises over every run from an empty file. */
module ReminderSafety {
  import opened Options
  import opened ReminderOutbox
  import opened ReminderStore
  import opened ReminderRuns
  import opened ReminderInvariant

  /** Whatever fails, crashes or restarts in between: everything accepted or delivered for an
      operation is the same text and due time, until its delivered row is evicted from the file. */
  lemma {:induction false} DeliveriesAgree(settings: Settings, events: seq<Event>, i: nat, j: nat)
    requires var log := Run(Initial(settings), events).log;
             i < j < |log| && SameId(log[i], log[j]) && KeptBetween(log, i, j, log[i].id)
    ensures var log := Run(Initial(settings), events).log; log[i].binding == log[j].binding
  {
    Reachable(settings, events);
    hide Run;
  }

  /** The next entry is a delivery, of a row that the file and memory now hold in flight and that
      is not due again before the tick's own time has passed. */
  ghost predicate CalledDurably(s: State, s': State, id: Id) {
    var row := RowOf(s'.store.disk, id);
    && row.Some? && row == RowOf(s'.store.memory, id) && row.value.Live? && row.value.inFlight
    && s'.log == s.log + [Sent(id, Binding(row.value.payload, row.value.due))]
    && RowOf(s.store.memory, id).Some? && Carries(row, RowOf(s.store.memory, id).value)
    && s.tick.Some? && row.value.next > s.tick.value.now
  }

  lemma ClaimIsDurable(s: State, rest: Tick, row: Row, o: Outcome)
    requires StoreOk(s) && s.tick.Some? && rest.now == s.tick.value.now && LiveIn(s.store.memory, row)
    ensures ClaimWrite(s, rest, row, o).log != s.log ==> CalledDurably(s, ClaimWrite(s, rest, row, o), row.id)
  {
    var claimed := ClaimedRow(s.settings, row, rest.now);
    UpdateInFlight(s, row.id, claimed);
    RetryDelayGrows(s.settings, claimed.attempts, claimed.attempts);
    hide StoreOk, RowOf, With, Fits, RetryDelay;
  }

  /** A delivery is called only when the file already holds that very row in flight. */
  lemma {:induction false} DurableBeforeTheCall(settings: Settings, events: seq<Event>, o: Outcome)
    ensures var s := Run(Initial(settings), events);
            Next(s, Claim(o)).log != s.log ==> exists id :: CalledDurably(s, Next(s, Claim(o)), id)
  {
    var s := Run(Initial(settings), events);
    Reachable(settings, events);
    hide Run, StoreOk, HistoryOk, TickOk, ClaimWrite;
    if Next(s, Claim(o)).log != s.log {
      var t := s.tick.value;
      var row := RowOf(s.store.memory, t.todo[0]).value;
      assert Next(s, Claim(o)) == ClaimWrite(s, t.(todo := t.todo[1..]), row, o);
      ClaimIsDurable(s, t.(todo := t.todo[1..]), row, o);
    }
  }

  /** While a delivery is awaited, its row stays in flight in memory and in the file, whatever is
      scheduled meanwhile and however those writes end. */
  lemma {:induction false} AwaitedStaysInFlight(settings: Settings, events: seq<Event>)
    requires var t := Run(Initial(settings), events).tick; t.Some? && t.value.awaiting.Some?
    ensures var s := Run(Initial(settings), events); var id := s.tick.value.awaiting.value;
            && RowOf(s.store.disk, id).Some?
            && var p := RowOf(s.store.disk, id).value.payload;
               InFlight(RowOf(s.store.disk, id), p) && InFlight(RowOf(s.store.memory, id), p) && WasSent(s.log, id, p)
  {
    Reachable(settings, events);
    hide Run;
  }

  /** Every undelivered row in memory has its row in the file, and no operation has two rows. */
  lemma {:induction false} MemoryIsDurable(settings: Settings, events: seq<Event>)
    ensures var store := Run(Initial(settings), events).store;
            Covers(store.disk, store.memory) && Unique(store.memory) && Unique(store.disk)
  {
    Reachable(settings, events);
    hide Run;
  }

  // ---------------------------------------------------------------- what an eviction takes

  /** The phone has acknowledged this very text of the operation, after a delivery of it was called. */
  ghost predicate Delivered(s: State, id: Id, payload: Payload) {
    (id, payload) in s.acked && WasSent(s.log, id, payload)
  }

  /** Everything accepted or sent is kept in the file since, or was delivered as it was accepted; and
      an eviction has only taken operations that were delivered before it. */
  ghost predicate DropsOk(s: State) {
    && (forall k :: 0 <= k < |s.log| && !s.log[k].Evicted? ==>
          KeptSince(s.log, k + 1, s.log[k].id) || (s.log[k].id, s.log[k].binding.payload) in s.acked)
    && (forall k, id :: 0 <= k < |s.log| && s.log[k].Evicted? && id in s.log[k].ids ==> DeliveredBefore(s, k, id))
  }

  ghost predicate DeliveredBefore(s: State, k: nat, id: Id)
    requires k <= |s.log|
  {
    exists j :: 0 <= j < k && s.log[j].Sent? && s.log[j].id == id && (id, s.log[j].binding.payload) in s.acked
  }

  lemma DeliveredStays(s: State, s': State, k: nat, id: Id)
    requires k <= |s.log| && DeliveredBefore(s, k, id) && s.log <= s'.log && s.acked <= s'.acked
    ensures DeliveredBefore(s', k, id)
  {
    var j :| 0 <= j < k && s.log[j].Sent? && s.log[j].id == id && (id, s.log[j].binding.payload) in s.acked;
    assert s'.log[j] == s.log[j];
  }

  /** The rows an eviction takes from memory were acknowledged as what they are bound to. */
  lemma GoneWasDelivered(s: State, id: Id)
    requires StoreOk(s) && s.loaded && id in Gone(s.store.memory)
    ensures RowOf(s.store.memory, id).Some? && (id, RowOf(s.store.memory, id).value.payload) in s.acked
    ensures id in s.bound ==> s.bound[id].payload == RowOf(s.store.memory, id).value.payload
  {
    GoneMeans(s.store.memory, id);
    RowOfRetained(s.store.memory, id);
    OnlyAckedAt(s.store.memory, s.acked, id);
    hide RowOf, Retained, Gone, OnlyAcked, Covers, Unique;
  }

  /** One more entry, which is not an eviction. */
  lemma EntryKeepsDrops(s: State, s': State, e: Entry)
    requires DropsOk(s) && s'.log == s.log + [e] && !e.Evicted? && s.acked <= s'.acked
    ensures DropsOk(s')
  {
    forall k | 0 <= k < |s.log| && !s.log[k].Evicted? && KeptSince(s.log, k + 1, s.log[k].id)
      ensures KeptSince(s'.log, k + 1, s.log[k].id)
    {
      KeptSinceGrows(s.log, e, k + 1, s.log[k].id);
    }
    hide KeptSince, DeliveredBefore;
    forall k, id | 0 <= k < |s'.log| && s'.log[k].Evicted? && id in s'.log[k].ids ensures DeliveredBefore(s', k, id) {
      DeliveredStays(s, s', k, id);
    }
    assert KeptSince(s'.log, |s'.log|, e.id) by { NothingSince(s'.log, e.id); }
  }

  lemma NothingSince(log: seq<Entry>, id: Id)
    ensures KeptSince(log, |log|, id)
  {
  }

  /** An entry that an eviction of delivered rows does not keep was delivered as it is. */
  lemma KeptOrDelivered(s: State, gone: set<Id>, k: nat)
    requires Inv(s) && s.loaded && gone == Gone(s.store.memory)
    requires k < |s.log| && !s.log[k].Evicted? && KeptSince(s.log, k + 1, s.log[k].id)
    ensures KeptSince(s.log + [Evicted(gone)], k + 1, s.log[k].id) || (s.log[k].id, s.log[k].binding.payload) in s.acked
  {
    var id := s.log[k].id;
    if id in gone {
      assert id in s.bound && s.bound[id] == s.log[k].binding;
      GoneWasDelivered(s, id);
    } else {
      hide Inv;
      KeptSinceGrows(s.log, Evicted(gone), k + 1, id);
    }
    hide Inv, Gone, RowOf;
  }

  lemma GoneDeliveredBefore(s: State, s': State, id: Id)
    requires Inv(s) && s.loaded && id in Gone(s.store.memory) && s.log <= s'.log && s'.acked == s.acked
    ensures DeliveredBefore(s', |s.log|, id)
  {
    GoneWasDelivered(s, id);
    hide StoreOk, TickOk, LogCurrent, LogCoherent, Gone, RowOf;
    var p := RowOf(s.store.memory, id).value.payload;
    var j :| 0 <= j < |s.log| && s.log[j].Sent? && s.log[j].id == id && s.log[j].binding.payload == p;
    assert s'.log[j] == s.log[j];
  }

  /** An eviction of delivered rows. */
  lemma EvictionKeepsDrops(s: State, s': State, gone: set<Id>)
    requires Inv(s) && DropsOk(s) && s.loaded && gone == Gone(s.store.memory)
    requires s'.log == s.log + [Evicted(gone)] && s'.acked == s.acked
    ensures DropsOk(s')
  {
    hide Inv, KeptSince, DeliveredBefore, Gone;
    forall k | 0 <= k < |s'.log| && !s'.log[k].Evicted?
      ensures KeptSince(s'.log, k + 1, s'.log[k].id) || (s'.log[k].id, s'.log[k].binding.payload) in s'.acked
    {
      if KeptSince(s.log, k + 1, s.log[k].id) { KeptOrDelivered(s, gone, k); }
    }
    forall k, id | 0 <= k < |s'.log| && s'.log[k].Evicted? && id in s'.log[k].ids ensures DeliveredBefore(s', k, id) {
      if k < |s.log| { DeliveredStays(s, s', k, id); } else { GoneDeliveredBefore(s, s', id); }
    }
  }

  lemma ScheduleKeepsDrops(s: State, r: Request, o: Outcome)
    requires Inv(s) && DropsOk(s)
    ensures DropsOk(ScheduleNext(s, r, o))
  {
    var s' := ScheduleNext(s, r, o);
    hide Inv, DropsOk, Decide, Gone, Fits, Commit;
    if s'.log != s.log {
      var gone := Gone(s.store.memory);
      var between := s.(log := s.log + [Evicted(gone)]);
      EvictionKeepsDrops(s, between, gone);
      if |s'.log| == |s.log| + 2 {
        EntryKeepsDrops(between, s', s'.log[|s.log| + 1]);
      } else { SameDrops(between, s'); }
    } else { SameDrops(s, s'); }
  }

  lemma SameDrops(s: State, s': State)
    requires DropsOk(s) && s'.log == s.log && s.acked <= s'.acked
    ensures DropsOk(s')
  {
    hide KeptSince, DeliveredBefore;
    forall k, id | 0 <= k < |s'.log| && s'.log[k].Evicted? && id in s'.log[k].ids ensures DeliveredBefore(s', k, id) {
      DeliveredStays(s, s', k, id);
    }
  }

  lemma {:induction false} ReachableDrops(settings: Settings, events: seq<Event>)
    ensures DropsOk(Run(Initial(settings), events))
    decreases |events|
  {
    hide Next, Inv;
    if events != [] {
      hide DropsOk;
      var n := |events| - 1;
      var s := Run(Initial(settings), events[..n]);
      Reachable(settings, events[..n]);
      ReachableDrops(settings, events[..n]);
      NextKeepsDrops(s, events[n]);
    }
  }

  lemma NextKeepsDrops(s: State, e: Event)
    requires Inv(s) && DropsOk(s)
    ensures DropsOk(Next(s, e))
  {
    if e.Schedule? {
      hide Inv, DropsOk, ScheduleNext;
      ScheduleKeepsDrops(s, e.request, e.outcome);
    } else {
      OthersOnlySend(s, e);
      hide Inv, DropsOk, Next;
      var s' := Next(s, e);
      if s'.log == s.log { SameDrops(s, s'); } else { EntryKeepsDrops(s, s', s'.log[|s.log|]); }
    }
  }

  /** Nothing is ever evicted undelivered: before an eviction a delivery of each operation that it takes
      was called with a text that the phone has acknowledged. */
  lemma {:induction false} EvictedWasDelivered(settings: Settings, events: seq<Event>, k: nat, id: Id)
    requires var log := Run(Initial(settings), events).log; k < |log| && log[k].Evicted? && id in log[k].ids
    ensures var s := Run(Initial(settings), events);
            exists j :: 0 <= j < k && s.log[j].Sent? && s.log[j].id == id && (id, s.log[j].binding.payload) in s.acked
  {
    ReachableDrops(settings, events);
    hide Run, KeptSince;
    assert DeliveredBefore(Run(Initial(settings), events), k, id);
  }

  /** What was accepted or sent is never dropped undelivered: in every run it is still in the file with
      its payload, live or as the record of an acknowledged delivery, and in the memory of a loaded
      scheduler; or it has been evicted, and then exactly that payload was delivered and acknowledged. */
  lemma {:induction false} NeverDropped(settings: Settings, events: seq<Event>, k: nat)
    requires var log := Run(Initial(settings), events).log; k < |log| && !log[k].Evicted?
    ensures var s := Run(Initial(settings), events); var id := s.log[k].id; var b := s.log[k].binding;
            if KeptSince(s.log, k + 1, id) then
              && Matches(RowOf(s.store.disk, id), b)
              && (s.loaded ==> Matches(RowOf(s.store.memory, id), b))
              && (RowOf(s.store.disk, id).value.Tombstone? ==> Delivered(s, id, b.payload))
              && (s.loaded && RowOf(s.store.memory, id).value.Tombstone? ==> Delivered(s, id, b.payload))
            else Delivered(s, id, b.payload)
  {
    var s := Run(Initial(settings), events);
    Reachable(settings, events);
    ReachableDrops(settings, events);
    hide Run;
    OnlyAckedAt(s.store.disk, s.acked, s.log[k].id);
    OnlyAckedAt(s.store.memory, s.acked, s.log[k].id);
    hide RowOf, Covers, LogCoherent, OnlyAcked, Unique, WasSent;
  }

  lemma OnlyAckedAt(rows: seq<Row>, acked: set<(Id, Payload)>, id: Id)
    requires OnlyAcked(rows, acked)
    ensures RowOf(rows, id).Some? && RowOf(rows, id).value.Tombstone? ==> (id, RowOf(rows, id).value.payload) in acked
  {
  }

  /** An operation that was never evicted: the phone shows its own text or nothing, and has shown it
      as soon as the outbox counts it as delivered. */
  lemma {:induction false} ShownAsAccepted(settings: Settings, events: seq<Event>, k: nat)
    requires var log := Run(Initial(settings), events).log;
             k < |log| && !log[k].Evicted? && KeptSince(log, 0, log[k].id)
    ensures var s := Run(Initial(settings), events); var id := s.log[k].id; var b := s.log[k].binding;
            && (id in s.phone ==> s.phone[id] == b.payload.text)
            && (Matches(RowOf(s.store.disk, id), b) && RowOf(s.store.disk, id).value.Tombstone? ==> id in s.phone)
  {
    var s := Run(Initial(settings), events);
    var id := s.log[k].id;
    Reachable(settings, events);
    NeverDropped(settings, events, k);
    hide Run, RowOf, StoreOk, TickOk, LogCoherent;
    if id in s.phone {
      var j :| 0 <= j < |s.log| && s.log[j].Sent? && s.log[j].id == id && s.log[j].binding.payload.text == s.phone[id];
      assert KeptSince(s.log, j + 1, id) && KeptSince(s.log, k + 1, id);
    }
  }

  /** While its row is retained an operation is settled: the same payload gets the original due
      time or the recorded receipt whatever the clock says, any other payload conflicts, and
      neither changes anything. */
  lemma {:induction false} RetriesAnswerTheSame(settings: Settings, events: seq<Event>, k: nat, r: Request, o: Outcome)
    requires var s := Run(Initial(settings), events);
             && s.loaded && k < |s.log| && !s.log[k].Evicted? && KeptSince(s.log, k + 1, s.log[k].id)
             && r.id == s.log[k].id && r.clean && SafePayload(r.payload)
    ensures var s := Run(Initial(settings), events); var b := s.log[k].binding; var row := RowOf(s.store.memory, r.id);
            && Next(s, Schedule(r, o)) == s && row.Some?
            && ReplyTo(s, r, o) == (if r.payload != b.payload then Conflict
                                    else if row.value.Live? then HistoricalScheduled(b.due)
                                    else HistoricalDelivered(row.value.status))
            && (r.payload == b.payload && row.value.Tombstone? ==> (r.id, r.payload) in s.acked)
  {
    NeverDropped(settings, events, k);
    hide Run, RowOf, SafePayload;
  }

  // ---------------------------------------------------------------- never early

  /** No live row may be attempted before it is due. */
  predicate NotEarly(rows: seq<Row>) {
    forall x :: x in rows && x.Live? ==> x.due <= x.next
  }

  predicate StoresNotEarly(s: State) {
    NotEarly(s.store.memory) && NotEarly(s.store.disk)
  }

  lemma UpdateNotEarly(rows: seq<Row>, id: Id, row: Row)
    requires NotEarly(rows) && (row.Live? ==> row.due <= row.next)
    ensures NotEarly(With(rows, id, row))
  {
    var rows' := With(rows, id, row);
    forall x | x in rows' ensures x in rows || x == row {
      var k :| 0 <= k < |rows'| && rows'[k] == x;
      assert RowOf(rows, id).Some? && k != IndexOf(rows, id) ==> x == rows[k];
    }
  }

  lemma ScheduleNotEarly(s: State, r: Request, o: Outcome)
    requires StoresNotEarly(s)
    ensures StoresNotEarly(ScheduleNext(s, r, o))
  {
    RetainedIn(s.store.memory);
    hide Retained, Gone, Fits, RowOf, SafePayload;
  }

  lemma ClaimNotEarly(s: State, rest: Tick, row: Row, o: Outcome)
    requires StoresNotEarly(s) && row.Live? && row.due <= row.next <= rest.now
    ensures StoresNotEarly(ClaimWrite(s, rest, row, o))
  {
    var claimed := ClaimedRow(s.settings, row, rest.now);
    RetryDelayGrows(s.settings, claimed.attempts, claimed.attempts);
    UpdateNotEarly(s.store.memory, row.id, claimed);
    hide Fits, With, RetryDelay, NotEarly;
  }

  lemma SettleNotEarly(s: State, rest: Tick, row: Row, answer: Option<Receipt>, now: Instant, o: Outcome)
    requires StoresNotEarly(s) && row.Live? && row.due <= row.next
    ensures StoresNotEarly(SettleWrite(s, rest, row, answer, now, o))
  {
    UpdateNotEarly(s.store.memory, row.id, Settled(row, answer, now));
    hide Fits, With, NotEarly;
  }

  lemma NextNotEarly(s: State, e: Event)
    requires StoresNotEarly(s)
    ensures StoresNotEarly(Next(s, e))
  {
    if e.Schedule? {
      hide ScheduleNext, StoresNotEarly;
      ScheduleNotEarly(s, e.request, e.outcome);
    } else if e.Claim? && s.tick.Some? && s.tick.value.awaiting.None? && s.tick.value.todo != [] {
      var t := s.tick.value;
      var row := RowOf(s.store.memory, t.todo[0]);
      if row.Some? && DueBy(row.value, t.now) { ClaimNotEarly(s, t.(todo := t.todo[1..]), row.value, e.outcome); }
      hide ClaimWrite, RowOf, NotEarly;
    } else if e.Settle? && s.tick.Some? && s.tick.value.awaiting.Some? {
      var id := s.tick.value.awaiting.value;
      var row := RowOf(s.store.memory, id);
      if row.Some? && row.value.Live? {
        SettleNotEarly(s, s.tick.value.(awaiting := None), row.value, if id in s.phone then e.receipt else None, e.now, e.outcome);
      }
      hide SettleWrite, RowOf, NotEarly;
    } else {
      hide DueIds, Acceptable;
    }
  }

  lemma {:induction false} ReachableNotEarly(settings: Settings, events: seq<Event>)
    ensures StoresNotEarly(Run(Initial(settings), events))
    decreases |events|
  {
    hide Next, StoresNotEarly;
    if events == [] {
      assert StoresNotEarly(Initial(settings)) by { EmptyNotEarly(settings); }
    } else {
      ReachableNotEarly(settings, events[..|events| - 1]);
      NextNotEarly(Run(Initial(settings), events[..|events| - 1]), events[|events| - 1]);
    }
  }

  lemma EmptyNotEarly(settings: Settings)
    ensures StoresNotEarly(Initial(settings))
  {
  }

  /** No reminder is handed over before the tick's time has reached its due time. */
  lemma {:induction false} NeverEarly(settings: Settings, events: seq<Event>, o: Outcome)
    ensures var s := Run(Initial(settings), events); var log := Next(s, Claim(o)).log;
            log != s.log ==>
              |log| == |s.log| + 1 && log[|s.log|].Sent? && s.tick.Some? && log[|s.log|].binding.due <= s.tick.value.now
  {
    var s := Run(Initial(settings), events);
    ReachableNotEarly(settings, events);
    hide Run, Fits, With, RetryDelay, Commit;
    if Next(s, Claim(o)).log != s.log {
      assert RowOf(s.store.memory, s.tick.value.todo[0]).value in s.store.memory;
    }
    hide RowOf;
  }
}
