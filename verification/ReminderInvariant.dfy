/** What every step of the reminder scheduler keeps. */
module ReminderInvariant {
  import opened Options
  import opened ReminderOutbox
  import opened ReminderStore
  import opened ReminderRuns

  // ---------------------------------------------------------------- memory, file and bindings

  predicate Matches(row: Option<Row>, b: Binding) {
    row.Some? && row.value.payload == b.payload && (row.value.Live? ==> row.value.due == b.due)
  }

  /** Every bound id has its row. */
  predicate Holds(rows: seq<Row>, bound: map<Id, Binding>) {
    forall id :: id in bound ==> Matches(RowOf(rows, id), bound[id])
  }

  predicate OnlyAcked(rows: seq<Row>, acked: set<(Id, Payload)>) {
    forall i :: 0 <= i < |rows| && rows[i].Tombstone? ==> (rows[i].id, rows[i].payload) in acked
  }

  predicate Carries(row: Option<Row>, live: Row) {
    row.Some? && row.value.payload == live.payload && (row.value.Live? && live.Live? ==> row.value.due == live.due)
  }

  /** Every undelivered row in memory has its row in the file, live or delivered. */
  predicate Covers(disk: seq<Row>, memory: seq<Row>) {
    forall i :: 0 <= i < |memory| && memory[i].Live? ==> Carries(RowOf(disk, memory[i].id), memory[i])
  }

  predicate StoreOk(s: State) {
    && Unique(s.store.memory) && Unique(s.store.disk)
    && Holds(s.store.disk, s.bound) && (s.loaded ==> Holds(s.store.memory, s.bound))
    && OnlyAcked(s.store.memory, s.acked) && OnlyAcked(s.store.disk, s.acked)
    && Covers(s.store.disk, s.store.memory)
    && (!s.loaded ==> s.store.memory == [] && !s.running && s.tick.None?)
  }

  predicate InFlight(row: Option<Row>, payload: Payload) {
    row.Some? && row.value.Live? && row.value.inFlight && row.value.payload == payload
  }

  // ---------------------------------------------------------------- the log and the phone

  /** No eviction of `id` was written in `log[from..]`. */
  predicate KeptSince(log: seq<Entry>, from: nat, id: Id) {
    forall k :: from <= k < |log| && log[k].Evicted? ==> id !in log[k].ids
  }

  /** What was accepted or sent for an id that has not been evicted since is what it is bound to. */
  predicate LogCurrent(log: seq<Entry>, bound: map<Id, Binding>) {
    forall k :: 0 <= k < |log| && !log[k].Evicted? && KeptSince(log, k + 1, log[k].id) ==>
      log[k].id in bound && bound[log[k].id] == log[k].binding
  }

  /** Nothing between `i` and `j` evicted `id`. */
  predicate KeptBetween(log: seq<Entry>, i: nat, j: nat, id: Id)
    requires j <= |log|
  {
    forall k :: i <= k < j && log[k].Evicted? ==> id !in log[k].ids
  }

  predicate SameId(a: Entry, b: Entry) {
    !a.Evicted? && !b.Evicted? && a.id == b.id
  }

  predicate LogCoherent(log: seq<Entry>) {
    forall i, j :: 0 <= i < j < |log| && SameId(log[i], log[j]) && KeptBetween(log, i, j, log[i].id) ==>
                     log[i].binding == log[j].binding
  }

  ghost predicate WasSent(log: seq<Entry>, id: Id, payload: Payload) {
    exists k :: 0 <= k < |log| && log[k].Sent? && log[k].id == id && log[k].binding.payload == payload
  }

  ghost predicate TextSent(log: seq<Entry>, id: Id, text: string) {
    exists k :: 0 <= k < |log| && log[k].Sent? && log[k].id == id && log[k].binding.payload.text == text
  }

  ghost predicate PhoneOk(s: State) {
    && (forall id :: id in s.phone ==> TextSent(s.log, id, s.phone[id]))
    && (forall a :: a in s.acked ==> a.0 in s.phone && WasSent(s.log, a.0, a.1))
  }

  /** While a delivery is awaited its row is in flight in memory and in the file. */
  ghost predicate Awaited(s: State, id: Id) {
    exists p :: InFlight(RowOf(s.store.memory, id), p) && InFlight(RowOf(s.store.disk, id), p) && WasSent(s.log, id, p)
  }

  ghost predicate TickOk(s: State) {
    s.tick.Some? ==> s.running && (s.tick.value.awaiting.Some? ==> Awaited(s, s.tick.value.awaiting.value))
  }

  ghost predicate HistoryOk(s: State) {
    LogCurrent(s.log, s.bound) && LogCoherent(s.log) && PhoneOk(s)
  }

  ghost predicate Inv(s: State) {
    StoreOk(s) && HistoryOk(s) && TickOk(s)
  }

  // ---------------------------------------------------------------- rows that replace others

  /** `rows'` carries on every row of `rows` except the delivered ones of `gone`. */
  predicate Succeeds(rows: seq<Row>, rows': seq<Row>, gone: set<Id>) {
    && Unique(rows')
    && forall i :: 0 <= i < |rows| ==>
         if rows[i].id in gone then rows[i].Tombstone?
         else Carries(RowOf(rows', rows[i].id), rows[i])
              && (rows[i].Tombstone? ==> RowOf(rows', rows[i].id).value.Tombstone?)
  }

  lemma SucceedsHolds(rows: seq<Row>, rows': seq<Row>, gone: set<Id>, bound: map<Id, Binding>)
    requires Succeeds(rows, rows', gone) && Holds(rows, bound)
    ensures Holds(rows', bound - gone)
  {
  }

  lemma SucceedsCovers(rows: seq<Row>, rows': seq<Row>, gone: set<Id>)
    requires Succeeds(rows, rows', gone)
    ensures Covers(rows', rows)
  {
  }

  lemma SelfCovers(rows: seq<Row>)
    requires Unique(rows)
    ensures Covers(rows, rows)
  {
    forall i | 0 <= i < |rows| ensures RowOf(rows, rows[i].id) == Some(rows[i]) {
      RowAt(rows, i);
    }
  }

  /** A claim, a deferral or a completion replaces one live row by a row that carries it on. */
  lemma UpdateSucceeds(rows: seq<Row>, id: Id, row: Row)
    requires Unique(rows) && RowOf(rows, id).Some? && RowOf(rows, id).value.Live?
    requires row.id == id && Carries(Some(row), RowOf(rows, id).value)
    ensures Succeeds(rows, With(rows, id, row), {})
    ensures RowOf(With(rows, id, row), id) == Some(row)
  {
    var at := IndexOf(rows, id);
    RowOfUpdate(rows, at, row, id);
    forall i | 0 <= i < |rows|
      ensures RowOf(With(rows, id, row), rows[i].id) == Some(if i == at then row else rows[i])
    {
      RowOfUpdate(rows, at, row, rows[i].id);
      RowAt(rows, i);
    }
    hide RowOf, IndexOf;
  }

  lemma UpdateOnlyAcked(rows: seq<Row>, id: Id, row: Row, acked: set<(Id, Payload)>)
    requires OnlyAcked(rows, acked) && (row.Tombstone? ==> (row.id, row.payload) in acked)
    ensures OnlyAcked(With(rows, id, row), acked)
  {
  }

  lemma GoneMeans(rows: seq<Row>, id: Id)
    requires Unique(rows)
    ensures id in Gone(rows) <==> RowOf(rows, id).Some? && RowOf(Retained(rows), id).None?
  {
  }

  lemma WriteSucceeds(rows: seq<Row>, r: Request)
    requires Unique(rows) && Decide(rows, r).Write?
    ensures Succeeds(rows, Decide(rows, r).rows, Gone(rows))
    ensures RowOf(Decide(rows, r).rows, r.id) == Some(NewRow(r))
    ensures RowOf(rows, r.id).None? && r.id !in Gone(rows)
  {
    var kept := Retained(rows);
    RowOfRetained(rows, r.id);
    RowOfAppend(kept, NewRow(r), r.id);
    GoneMeans(rows, r.id);
    forall i | 0 <= i < |rows|
      ensures if rows[i].id in Gone(rows) then rows[i].Tombstone?
              else RowOf(Decide(rows, r).rows, rows[i].id) == Some(rows[i])
    {
      RowAt(rows, i);
      RowOfRetained(rows, rows[i].id);
      RowOfAppend(kept, NewRow(r), rows[i].id);
      GoneMeans(rows, rows[i].id);
    }
  }

  lemma WriteOnlyAcked(rows: seq<Row>, r: Request, acked: set<(Id, Payload)>)
    requires OnlyAcked(rows, acked) && Decide(rows, r).Write?
    ensures OnlyAcked(Decide(rows, r).rows, acked)
  {
    RetainedIn(rows);
    hide Retained;
    var kept := Retained(rows);
    assert forall i :: 0 <= i < |kept| ==> kept[i] in kept;
  }

  // ---------------------------------------------------------------- every commit

  /** The bindings after a write: the old ones less the evicted, and one new one if confirmed. */
  predicate Rebinds(bound: map<Id, Binding>, bound': map<Id, Binding>, rows: seq<Row>, gone: set<Id>, o: Outcome) {
    forall id :: id in bound' ==>
      || (id in bound && bound'[id] == bound[id] && (id in gone ==> o.FailedOld?))
      || (o.Confirmed? && Matches(RowOf(rows, id), bound'[id]))
  }

  lemma RebindsConfirmed(s: State, bound': map<Id, Binding>, rows: seq<Row>, gone: set<Id>)
    requires Succeeds(s.store.memory, rows, gone) && Holds(s.store.memory, s.bound)
    requires Rebinds(s.bound, bound', rows, gone, Confirmed)
    ensures Holds(rows, bound')
  {
    SucceedsHolds(s.store.memory, rows, gone, s.bound);
    hide Succeeds, Matches, RowOf;
    forall id | id in bound' ensures Matches(RowOf(rows, id), bound'[id]) {
      if id in s.bound && bound'[id] == s.bound[id] && id !in gone { assert id in s.bound - gone; }
    }
  }

  lemma RebindsFailed(s: State, bound': map<Id, Binding>, rows: seq<Row>, gone: set<Id>)
    requires Succeeds(s.store.memory, rows, gone) && Holds(s.store.memory, s.bound)
    requires Rebinds(s.bound, bound', rows, gone, FailedNew)
    ensures Holds(rows, bound') && Holds(s.store.memory, bound')
  {
    SucceedsHolds(s.store.memory, rows, gone, s.bound);
    hide Succeeds, Matches, RowOf;
    forall id | id in bound' ensures id in s.bound && bound'[id] == s.bound[id] && Matches(RowOf(rows, id), bound'[id]) {
      assert id in s.bound - gone;
    }
  }

  lemma RebindsNothing(s: State, bound': map<Id, Binding>, rows: seq<Row>, gone: set<Id>)
    requires Holds(s.store.memory, s.bound) && Holds(s.store.disk, s.bound)
    requires Rebinds(s.bound, bound', rows, gone, FailedOld)
    ensures Holds(s.store.memory, bound') && Holds(s.store.disk, bound')
  {
    hide Matches, RowOf;
  }

  /** Whatever way a write ends, memory and file stay in step. */
  lemma CommitKeepsStore(s: State, s': State, rows: seq<Row>, gone: set<Id>, o: Outcome)
    requires StoreOk(s) && s.loaded && s'.loaded
    requires Succeeds(s.store.memory, rows, gone) && Rebinds(s.bound, s'.bound, rows, gone, o)
    requires OnlyAcked(rows, s'.acked) && s.acked <= s'.acked
    requires s'.store == Commit(s.store, rows, o) && (!Fits(rows) ==> s'.bound == s.bound)
    ensures StoreOk(s')
  {
    hide Fits;
    SelfCovers(rows);
    SucceedsCovers(s.store.memory, rows, gone);
    if Fits(rows) {
      match o
      case Confirmed => RebindsConfirmed(s, s'.bound, rows, gone);
      case FailedNew => RebindsFailed(s, s'.bound, rows, gone);
      case FailedOld => RebindsNothing(s, s'.bound, rows, gone);
    }
    assert OnlyAcked(s.store.disk, s'.acked) && OnlyAcked(s.store.memory, s'.acked);
    hide RowOf, Covers, OnlyAcked, Rebinds, Holds;
  }

  // ---------------------------------------------------------------- the log grows

  lemma KeptSinceGrows(log: seq<Entry>, e: Entry, from: nat, id: Id)
    requires from <= |log|
    ensures KeptSince(log + [e], from, id) <==> KeptSince(log, from, id) && (e.Evicted? ==> id !in e.ids)
  {
    assert (log + [e])[|log|] == e;
    if KeptSince(log + [e], from, id) {
      assert forall k :: from <= k < |log| ==> (log + [e])[k] == log[k];
    }
  }

  /** A new entry that agrees with the bindings keeps the log current and coherent. */
  lemma LogGrows(log: seq<Entry>, bound: map<Id, Binding>, e: Entry)
    requires LogCurrent(log, bound) && LogCoherent(log)
    requires !e.Evicted? && (e.id in bound ==> bound[e.id] == e.binding)
    ensures LogCurrent(log + [e], bound[e.id := e.binding]) && LogCoherent(log + [e])
  {
    var log' := log + [e];
    assert forall k :: 0 <= k < |log| ==> log'[k] == log[k];
    forall k | 0 <= k < |log'| && !log'[k].Evicted? && KeptSince(log', k + 1, log'[k].id)
      ensures log'[k].id in bound[e.id := e.binding] && bound[e.id := e.binding][log'[k].id] == log'[k].binding
    {
      if k < |log| { KeptSinceGrows(log, e, k + 1, log[k].id); }
    }
    forall i, j | 0 <= i < j < |log'| && SameId(log'[i], log'[j]) && KeptBetween(log', i, j, log'[i].id)
      ensures log'[i].binding == log'[j].binding
    {
      if j < |log| {
        assert KeptBetween(log, i, j, log[i].id) by {
          assert forall k :: i <= k < j ==> log'[k] == log[k];
        }
      } else {
        assert KeptSince(log, i + 1, log[i].id) by {
          assert forall k :: i <= k < |log| ==> log'[k] == log[k];
        }
      }
    }
  }

  lemma LogEvicts(log: seq<Entry>, bound: map<Id, Binding>, gone: set<Id>)
    requires LogCurrent(log, bound) && LogCoherent(log)
    ensures LogCurrent(log + [Evicted(gone)], bound - gone) && LogCoherent(log + [Evicted(gone)])
  {
    var e := Evicted(gone);
    var log' := log + [e];
    assert forall k :: 0 <= k < |log| ==> log'[k] == log[k];
    forall k | 0 <= k < |log'| && !log'[k].Evicted? && KeptSince(log', k + 1, log'[k].id)
      ensures log'[k].id in bound - gone && (bound - gone)[log'[k].id] == log'[k].binding
    {
      KeptSinceGrows(log, e, k + 1, log[k].id);
    }
    forall i, j | 0 <= i < j < |log'| && SameId(log'[i], log'[j]) && KeptBetween(log', i, j, log'[i].id)
      ensures log'[i].binding == log'[j].binding
    {
      assert KeptBetween(log, i, j, log[i].id) by {
        assert forall k :: i <= k < j ==> log'[k] == log[k];
      }
    }
  }

  lemma SentGrows(log: seq<Entry>, more: seq<Entry>)
    ensures forall id, p :: WasSent(log, id, p) ==> WasSent(log + more, id, p)
    ensures forall id, t :: TextSent(log, id, t) ==> TextSent(log + more, id, t)
  {
    assert forall k :: 0 <= k < |log| ==> (log + more)[k] == log[k];
  }

  // ---------------------------------------------------------------- every step

  /** A new reminder leaves every undelivered row exactly as it is. */
  lemma WriteKeepsLive(rows: seq<Row>, r: Request, id: Id)
    requires Unique(rows) && Decide(rows, r).Write? && RowOf(rows, id).Some? && RowOf(rows, id).value.Live?
    ensures RowOf(Decide(rows, r).rows, id) == RowOf(rows, id)
  {
    RowOfRetained(rows, r.id);
    RowOfRetained(rows, id);
    RowOfAppend(Retained(rows), NewRow(r), id);
  }

  lemma ScheduleRebinds(s: State, r: Request, o: Outcome)
    requires ScheduleNext(s, r, o) != s
    requires RowOf(Decide(s.store.memory, r).rows, r.id) == Some(NewRow(r)) && r.id !in s.bound
    ensures var s' := ScheduleNext(s, r, o); var rows := Decide(s.store.memory, r).rows;
            && Rebinds(s.bound, s'.bound, rows, Gone(s.store.memory), o) && s'.store == Commit(s.store, rows, o)
            && (!Fits(rows) ==> s'.bound == s.bound) && s'.acked == s.acked && s'.loaded
  {
    hide Decide, Fits, Gone, RowOf;
  }

  lemma ScheduleKeepsStore(s: State, r: Request, o: Outcome)
    requires StoreOk(s)
    ensures StoreOk(ScheduleNext(s, r, o))
    ensures ScheduleNext(s, r, o) != s ==> r.id !in s.bound
  {
    if ScheduleNext(s, r, o) != s {
      var memory := s.store.memory;
      WriteSucceeds(memory, r);
      WriteOnlyAcked(memory, r, s.acked);
      assert r.id !in s.bound by { hide Decide; }
      ScheduleRebinds(s, r, o);
      hide Decide, StoreOk, Succeeds, OnlyAcked, Rebinds, Gone, Unique, Fits, ScheduleNext, Commit;
      CommitKeepsStore(s, ScheduleNext(s, r, o), Decide(memory, r).rows, Gone(memory), o);
    }
  }

  /** A longer log with the same phone and acknowledgements. */
  lemma PhoneKeeps(s: State, s': State, more: seq<Entry>)
    requires PhoneOk(s) && s'.phone == s.phone && s'.acked == s.acked && s'.log == s.log + more
    ensures PhoneOk(s')
  {
    SentGrows(s.log, more);
    hide WasSent, TextSent;
  }

  lemma ScheduleKeepsLog(s: State, r: Request, o: Outcome)
    requires HistoryOk(s) && (ScheduleNext(s, r, o) != s ==> r.id !in s.bound)
    ensures HistoryOk(ScheduleNext(s, r, o)) && s.log <= ScheduleNext(s, r, o).log
  {
    var s' := ScheduleNext(s, r, o);
    if s' != s {
      var gone := Gone(s.store.memory);
      hide Decide, Fits, Gone, Commit, LogCurrent, LogCoherent, PhoneOk;
      LogEvicts(s.log, s.bound, gone);
      PhoneKeeps(s, s', s'.log[|s.log|..]);
      var log1 := s.log + [Evicted(gone)];
      if s'.log != log1 {
        var e := Accepted(r.id, s'.bound[r.id]);
        LogGrows(log1, s.bound - gone, e);
        assert s'.log == log1 + [e];
      }
    }
  }

  lemma ScheduleKeepsTick(s: State, r: Request, o: Outcome)
    requires StoreOk(s) && TickOk(s) && s.log <= ScheduleNext(s, r, o).log
    ensures TickOk(ScheduleNext(s, r, o))
  {
    var s' := ScheduleNext(s, r, o);
    if s' != s && s.tick.Some? && s.tick.value.awaiting.Some? {
      var id := s.tick.value.awaiting.value;
      WriteKeepsLive(s.store.memory, r, id);
      var p :| InFlight(RowOf(s.store.memory, id), p) && InFlight(RowOf(s.store.disk, id), p) && WasSent(s.log, id, p);
      hide Decide, Fits, Gone, StoreOk, RowOf;
      SentGrows(s.log, s'.log[|s.log|..]);
      assert s'.log == s.log + s'.log[|s.log|..];
      assert InFlight(RowOf(s'.store.memory, id), p) && InFlight(RowOf(s'.store.disk, id), p) && WasSent(s'.log, id, p);
    }
  }

  lemma ScheduleKeeps(s: State, r: Request, o: Outcome)
    requires Inv(s)
    ensures Inv(ScheduleNext(s, r, o))
  {
    hide StoreOk, HistoryOk, TickOk, ScheduleNext;
    ScheduleKeepsStore(s, r, o);
    ScheduleKeepsLog(s, r, o);
    ScheduleKeepsTick(s, r, o);
  }

  /** A row of memory that a claim or an outcome replaces. */
  predicate LiveIn(rows: seq<Row>, row: Row) {
    row.Live? && RowOf(rows, row.id) == Some(row)
  }

  /** What a claim writes carries its rows on. */
  lemma ClaimSucceeds(s: State, row: Row, now: Instant)
    requires StoreOk(s) && LiveIn(s.store.memory, row)
    ensures var rows := With(s.store.memory, row.id, ClaimedRow(s.settings, row, now));
            && Succeeds(s.store.memory, rows, {}) && OnlyAcked(rows, s.acked)
            && RowOf(rows, row.id) == Some(ClaimedRow(s.settings, row, now))
  {
    var claimed := ClaimedRow(s.settings, row, now);
    UpdateSucceeds(s.store.memory, row.id, claimed);
    UpdateOnlyAcked(s.store.memory, row.id, claimed, s.acked);
  }

  lemma ClaimRebinds(s: State, rest: Tick, row: Row, o: Outcome)
    requires row.Live?
    requires RowOf(With(s.store.memory, row.id, ClaimedRow(s.settings, row, rest.now)), row.id)
             == Some(ClaimedRow(s.settings, row, rest.now))
    ensures var rows := With(s.store.memory, row.id, ClaimedRow(s.settings, row, rest.now));
            var s' := ClaimWrite(s, rest, row, o);
            && Rebinds(s.bound, s'.bound, rows, {}, o) && s'.store == Commit(s.store, rows, o)
            && (!Fits(rows) ==> s'.bound == s.bound) && s'.acked == s.acked && s'.loaded == s.loaded
  {
    hide Fits, With, RowOf;
  }

  lemma ClaimKeepsStore(s: State, rest: Tick, row: Row, o: Outcome)
    requires StoreOk(s) && s.loaded && LiveIn(s.store.memory, row)
    ensures StoreOk(ClaimWrite(s, rest, row, o))
  {
    ClaimSucceeds(s, row, rest.now);
    ClaimRebinds(s, rest, row, o);
    hide ClaimedRow, StoreOk, Succeeds, OnlyAcked, Fits, With, RowOf, Commit, LiveIn, Rebinds, ClaimWrite;
    var rows := With(s.store.memory, row.id, ClaimedRow(s.settings, row, rest.now));
    CommitKeepsStore(s, ClaimWrite(s, rest, row, o), rows, {}, o);
  }

  lemma ClaimBinds(s: State, row: Row)
    requires StoreOk(s) && s.loaded && LiveIn(s.store.memory, row)
    ensures row.id in s.bound ==> s.bound[row.id] == Binding(row.payload, row.due)
  {
    hide OnlyAcked, Covers, Unique;
  }

  lemma ClaimKeepsHistory(s: State, rest: Tick, row: Row, o: Outcome)
    requires HistoryOk(s) && row.Live?
    requires row.id in s.bound ==> s.bound[row.id] == Binding(row.payload, row.due)
    ensures HistoryOk(ClaimWrite(s, rest, row, o))
  {
    var s' := ClaimWrite(s, rest, row, o);
    var e := Sent(row.id, Binding(row.payload, row.due));
    LogGrows(s.log, s.bound, e);
    hide LogCurrent, LogCoherent, Fits, With, ClaimedRow, Commit, PhoneOk;
    PhoneKeeps(s, s', if s'.log == s.log then [] else [e]);
  }

  lemma ClaimKeepsTick(s: State, rest: Tick, row: Row, o: Outcome)
    requires StoreOk(s) && s.running && LiveIn(s.store.memory, row) && rest.awaiting.None?
    ensures TickOk(ClaimWrite(s, rest, row, o))
  {
    var s' := ClaimWrite(s, rest, row, o);
    var claimed := ClaimedRow(s.settings, row, rest.now);
    UpdateInFlight(s, row.id, claimed);
    hide StoreOk, With, RowOf, Fits, RetryDelay;
    if s'.tick.Some? && s'.tick.value.awaiting.Some? {
      assert s'.log[|s.log|] == Sent(row.id, Binding(row.payload, row.due));
      assert WasSent(s'.log, row.id, row.payload);
      assert InFlight(RowOf(s'.store.memory, row.id), row.payload);
    }
  }

  lemma UpdateInFlight(s: State, id: Id, row: Row)
    requires StoreOk(s) && RowOf(s.store.memory, id).Some? && row.id == id
    ensures RowOf(With(s.store.memory, id, row), id) == Some(row)
  {
    hide Holds, OnlyAcked, Covers;
    RowOfUpdate(s.store.memory, IndexOf(s.store.memory, id), row, id);
  }

  lemma LoadedInTick(s: State)
    requires StoreOk(s) && s.tick.Some?
    ensures s.loaded
  {
  }

  lemma ClaimKeeps(s: State, o: Outcome)
    requires Inv(s)
    ensures Inv(ClaimNext(s, o))
  {
    hide StoreOk, HistoryOk, ClaimWrite, RowOf;
    if s.tick.Some? && s.tick.value.awaiting.None? && s.tick.value.todo != [] {
      LoadedInTick(s);
      assert s.running;
      hide TickOk;
      var t := s.tick.value;
      var rest := t.(todo := t.todo[1..]);
      var row := RowOf(s.store.memory, t.todo[0]);
      if row.Some? && DueBy(row.value, t.now) {
        ClaimKeepsStore(s, rest, row.value, o);
        ClaimBinds(s, row.value);
        ClaimKeepsHistory(s, rest, row.value, o);
        ClaimKeepsTick(s, rest, row.value, o);
      } else {
        TickMoves(s, Open(rest));
      }
    }
  }

  /** Nothing else looks at what a tick still has to do. */
  lemma TickMoves(s: State, tick: Option<Tick>)
    requires Inv(s) && s.loaded && s.running && (tick.Some? ==> tick.value.awaiting.None?)
    ensures Inv(s.(tick := tick))
  {
    hide RowOf, WasSent, TextSent, KeptSince, LogCoherent;
  }

  lemma SettleKeepsStore(s: State, rest: Tick, row: Row, answer: Option<Receipt>, now: Instant, o: Outcome)
    requires StoreOk(s) && s.loaded && LiveIn(s.store.memory, row)
    ensures StoreOk(SettleWrite(s, rest, row, answer, now, o))
  {
    var s' := SettleWrite(s, rest, row, answer, now, o);
    var settled := Settled(row, answer, now);
    var rows := With(s.store.memory, row.id, settled);
    UpdateSucceeds(s.store.memory, row.id, settled);
    assert OnlyAcked(s.store.memory, s'.acked);
    UpdateOnlyAcked(s.store.memory, row.id, settled, s'.acked);
    hide StoreOk, Succeeds, OnlyAcked, Fits, With, RowOf;
    CommitKeepsStore(s, s', rows, {}, o);
  }

  lemma SettleKeepsHistory(s: State, rest: Tick, row: Row, answer: Option<Receipt>, now: Instant, o: Outcome)
    requires HistoryOk(s) && row.Live?
    requires answer.Some? ==> row.id in s.phone && WasSent(s.log, row.id, row.payload)
    ensures HistoryOk(SettleWrite(s, rest, row, answer, now, o))
  {
    hide LogCurrent, LogCoherent, Fits, With, Commit, WasSent, TextSent, Settled;
  }

  lemma AwaitedWasSent(s: State)
    requires TickOk(s) && s.tick.Some? && s.tick.value.awaiting.Some?
    ensures var id := s.tick.value.awaiting.value; var row := RowOf(s.store.memory, id);
            row.Some? && LiveIn(s.store.memory, row.value) && row.value.inFlight && WasSent(s.log, id, row.value.payload)
  {
  }

  lemma SettleKeeps(s: State, receipt: Option<Receipt>, now: Instant, o: Outcome)
    requires Inv(s)
    ensures Inv(SettleNext(s, receipt, now, o))
  {
    if s.tick.Some? && s.tick.value.awaiting.Some? {
      AwaitedWasSent(s);
      var id := s.tick.value.awaiting.value;
      var row := RowOf(s.store.memory, id).value;
      var rest := s.tick.value.(awaiting := None);
      var answer := if id in s.phone then receipt else None;
      SettleIsWrite(s, receipt, now, o, row, rest, answer);
      hide SettleNext, SettleWrite;
      SettleWriteKeeps(s, rest, row, answer, now, o);
    }
  }

  lemma SettleIsWrite(s: State, receipt: Option<Receipt>, now: Instant, o: Outcome, row: Row, rest: Tick, answer: Option<Receipt>)
    requires s.tick.Some? && s.tick.value.awaiting == Some(row.id) && rest == s.tick.value.(awaiting := None)
    requires LiveIn(s.store.memory, row) && row.inFlight && answer == (if row.id in s.phone then receipt else None)
    ensures SettleNext(s, receipt, now, o) == SettleWrite(s, rest, row, answer, now, o)
  {
    hide SettleWrite;
  }

  lemma SettleWriteKeeps(s: State, rest: Tick, row: Row, answer: Option<Receipt>, now: Instant, o: Outcome)
    requires Inv(s) && s.tick.Some? && LiveIn(s.store.memory, row) && rest.awaiting.None?
    requires answer.Some? ==> row.id in s.phone && WasSent(s.log, row.id, row.payload)
    ensures Inv(SettleWrite(s, rest, row, answer, now, o))
  {
    LoadedInTick(s);
    assert s.running;
    hide StoreOk, HistoryOk, WasSent, SettleWrite, TickOk, RowOf;
    SettleKeepsStore(s, rest, row, answer, now, o);
    SettleKeepsHistory(s, rest, row, answer, now, o);
    SettleKeepsTick(s, rest, row, answer, now, o);
  }

  lemma SettleKeepsTick(s: State, rest: Tick, row: Row, answer: Option<Receipt>, now: Instant, o: Outcome)
    requires s.running && row.Live? && rest.awaiting.None?
    ensures TickOk(SettleWrite(s, rest, row, answer, now, o))
  {
    hide Fits, With, Settled, Commit, Awaited;
  }

  lemma StartKeeps(s: State)
    requires Inv(s)
    ensures Inv(StartNext(s))
  {
    hide StoreSize, LiveCount;
    if StartNext(s) != s {
      SelfCovers(s.store.disk);
    }
  }

  lemma NextKeeps(s: State, e: Event)
    requires Inv(s)
    ensures Inv(Next(s, e))
  {
    if e.Schedule? { hide ScheduleNext, Inv; ScheduleKeeps(s, e.request, e.outcome); }
    else if e.Claim? { hide ClaimNext, Inv; ClaimKeeps(s, e.outcome); }
    else if e.Settle? { hide SettleNext, Inv; SettleKeeps(s, e.receipt, e.now, e.outcome); }
    else if e.Start? { hide StartNext, Inv; StartKeeps(s); }
    else { OtherKeeps(s, e); }
  }

  lemma OtherKeeps(s: State, e: Event)
    requires Inv(s) && (e.TickStart? || e.Arrive? || e.Stop? || e.Crash?)
    ensures Inv(Next(s, e))
  {
    hide RowOf, KeptSince, LogCoherent;
  }

  lemma {:induction false} RunKeeps(s: State, events: seq<Event>)
    requires Inv(s)
    ensures Inv(Run(s, events))
    decreases |events|
  {
    hide Next, Inv;
    if events != [] {
      RunKeeps(s, events[..|events| - 1]);
      NextKeeps(Run(s, events[..|events| - 1]), events[|events| - 1]);
    }
  }

  lemma Reachable(settings: Settings, events: seq<Event>)
    ensures Inv(Run(Initial(settings), events))
  {
    RunKeeps(Initial(settings), events);
  }
}
