/**
 A run in which everything succeeds and after which the scheduler cannot start again.
 `schedule` makes room before it adds a reminder but `_complete` never does: 768 delivered
 reminders, two more scheduled and both delivered leave 769 delivered rows.
 */
module ReminderOverflow {
  import opened Options
  import opened ReminderOutbox
  import opened ReminderStore
  import opened ReminderRuns
  import opened ReminderCapacity

  /** The scheduler runs, no tick is open, and memory and file hold `rows`. */
  predicate Quiet(s: State, rows: seq<Row>) {
    && s.loaded && s.running && s.tick.None? && s.store == Store(rows, rows)
    && Unique(rows) && Bounded(rows)
  }

  // ---------------------------------------------------------------- delivering one reminder

  /** One whole tick that delivers the only due reminder. */
  function Delivery(s: State, now: Instant): seq<Event> {
    [TickStart(now), Claim(Confirmed), Arrive(|s.log|), Settle(Some(Acknowledged), now, Confirmed)]
  }

  predicate OnlyDue(rows: seq<Row>, i: nat, now: Instant) {
    i < |rows| && DueBy(rows[i], now) && forall j :: 0 <= j < |rows| && j != i ==> !DueBy(rows[j], now)
  }

  lemma OnlyDueIsPicked(rows: seq<Row>, i: nat, now: Instant)
    requires Unique(rows) && OnlyDue(rows, i, now)
    ensures DueIds(rows, now) == [rows[i].id]
  {
    DueIdsMeans(rows, now);
    RowAt(rows, i);
    var ids := DueIds(rows, now);
    hide DueIds;
    forall k | 0 <= k < |ids| ensures ids[k] == rows[i].id && k == 0 {
      assert DueBy(RowOf(rows, ids[k]).value, now);
      assert DueBy(RowOf(rows, ids[0]).value, now);
    }
    assert rows[i] in rows;
    assert ids != [];
    assert ids[|ids| - 1] == rows[i].id;
  }

  lemma FourSteps(s: State, a: Event, b: Event, c: Event, d: Event)
    ensures Run(s, [a, b, c, d]) == Next(Next(Next(Next(s, a), b), c), d)
  {
    hide Next;
    assert [a, b, c, d][..3] == [a, b, c] && [a, b, c][..2] == [a, b] && [a, b][..1] == [a] && [a][..0] == [];
    assert Run(s, []) == s;
    assert Run(s, [a]) == Next(s, a);
    assert Run(s, [a, b]) == Next(Next(s, a), b);
    assert Run(s, [a, b, c]) == Next(Next(Next(s, a), b), c);
  }

  /** The rows after row `i` was delivered at `now`. */
  function AfterDelivery(settings: Settings, rows: seq<Row>, i: nat, now: Instant): seq<Row>
    requires i < |rows| && rows[i].Live?
  {
    rows[i := DeliveredRow(ClaimedRow(settings, rows[i], now), Acknowledged, now)]
  }

  lemma UpdateAt(rows: seq<Row>, i: nat, row: Row)
    requires Unique(rows) && Bounded(rows) && i < |rows| && rows[i].Live? && row.id == rows[i].id
    requires RowAcceptable(rows[i]) ==> RowAcceptable(row)
    ensures With(rows, row.id, row) == rows[i := row] && RowOf(rows[i := row], row.id) == Some(row)
    ensures Unique(rows[i := row]) && Bounded(rows[i := row]) && Fits(rows[i := row])
  {
    RowAt(rows, i);
    RowOfUpdate(rows, i, row, row.id);
    assert rows[i] in rows;
    UpdateCounts(rows, row.id, row);
    BoundedFits(rows[i := row]);
  }

  lemma StartsTick(s: State, rows: seq<Row>, i: nat, now: Instant)
    requires Quiet(s, rows) && OnlyDue(rows, i, now)
    ensures Next(s, TickStart(now)) == s.(tick := Some(Tick(now, [rows[i].id], None)))
  {
    OnlyDueIsPicked(rows, i, now);
    hide Quiet, OnlyDue, DueIds;
  }

  /** The state in which the delivery of row `i` is awaited. */
  predicate Handed(s: State, s': State, rows: seq<Row>, i: nat, now: Instant) {
    && OnlyDue(rows, i, now)
    && s'.loaded && s'.running && s'.tick == Some(Tick(now, [], Some(rows[i].id)))
    && s'.log == s.log + [Sent(rows[i].id, Binding(rows[i].payload, rows[i].due))]
    && var claimed := rows[i := ClaimedRow(s.settings, rows[i], now)];
       s'.store == Store(claimed, claimed) && Unique(claimed) && Bounded(claimed)
  }

  lemma ClaimsIt(s: State, rows: seq<Row>, i: nat, now: Instant)
    requires Quiet(s, rows) && OnlyDue(rows, i, now)
    ensures Handed(s, Next(s.(tick := Some(Tick(now, [rows[i].id], None))), Claim(Confirmed)), rows, i, now)
  {
    RowAt(rows, i);
    var claimed := ClaimedRow(s.settings, rows[i], now);
    assert RowAcceptable(rows[i]) ==> RowAcceptable(claimed) by { hide SafePayload; }
    UpdateAt(rows, i, claimed);
    var t := Tick(now, [rows[i].id], None);
    hide RowAcceptable, RowOf, Fits, Bounded, With, ClaimedRow, Unique;
    assert t.todo[1..] == [];
  }

  lemma Settles(s: State, s': State, rows: seq<Row>, i: nat, now: Instant)
    requires Handed(s, s', rows, i, now) && rows[i].id in s'.phone
    ensures Quiet(Next(s', Settle(Some(Acknowledged), now, Confirmed)), AfterDelivery(s.settings, rows, i, now))
  {
    hide RowAcceptable, RowOf, Fits, Bounded, Unique;
    var claimed := rows[i := ClaimedRow(s.settings, rows[i], now)];
    var delivered := DeliveredRow(claimed[i], Acknowledged, now);
    RowAt(claimed, i);
    DeliveredIsAcceptable(claimed[i], now);
    UpdateAt(claimed, i, delivered);
    assert claimed[i := delivered] == AfterDelivery(s.settings, rows, i, now);
    hide With, AfterDelivery;
  }

  lemma DeliveredIsAcceptable(row: Row, now: Instant)
    requires row.Live?
    ensures RowAcceptable(row) ==> RowAcceptable(DeliveredRow(row, Acknowledged, now))
  {
    hide SafePayload;
  }

  lemma ArrivesIt(s: State, s': State, rows: seq<Row>, i: nat, now: Instant)
    requires i < |rows| && Handed(s, s', rows, i, now)
    ensures var s2 := Next(s', Arrive(|s.log|)); Handed(s, s2, rows, i, now) && rows[i].id in s2.phone
  {
    hide OnlyDue, Bounded, Unique, ClaimedRow;
    assert s'.log[|s.log|].Sent? && s'.log[|s.log|].id == rows[i].id;
  }

  lemma DeliversIt(s: State, rows: seq<Row>, i: nat, now: Instant)
    requires Quiet(s, rows) && OnlyDue(rows, i, now)
    ensures Quiet(Run(s, Delivery(s, now)), AfterDelivery(s.settings, rows, i, now))
  {
    var e := Delivery(s, now);
    FourSteps(s, e[0], e[1], e[2], e[3]);
    StartsTick(s, rows, i, now);
    ClaimsIt(s, rows, i, now);
    var s2 := Next(s.(tick := Some(Tick(now, [rows[i].id], None))), Claim(Confirmed));
    hide Run, Next, Handed, Quiet;
    ArrivesIt(s, s2, rows, i, now);
    Settles(s, Next(s2, Arrive(|s.log|)), rows, i, now);
  }

  // ---------------------------------------------------------------- scheduling one reminder

  const SOME: Payload := Payload("30m", "Tea")

  function Ask(id: Id, due: Instant): Request {
    Request(id, SOME, true, Some(due), due - 1)
  }

  lemma SomeIsSafe()
    ensures SafePayload(SOME)
  {
    Ascii("Tea");
    Ascii("30m");
    hide Utf8Size, PlainChar;
  }

  lemma {:induction false} Ascii(s: string)
    requires forall k :: 0 <= k < |s| ==> ' ' <= s[k] <= '~'
    ensures Utf8Size(s) == |s| && forall k :: 0 <= k < |s| ==> PlainChar(s[k])
  {
    if s != "" { Ascii(s[1..]); }
  }

  lemma AskIsWritten(rows: seq<Row>, id: Id, due: Instant)
    requires RowOf(rows, id).None? && LiveCount(rows) < MAX_PENDING_REMINDERS
    ensures Decide(rows, Ask(id, due)) == Write(Retained(rows) + [NewRow(Ask(id, due))])
  {
    SomeIsSafe();
    hide SafePayload, Retained, LiveCount, RowOf;
  }

  lemma AskKeepsBounds(rows: seq<Row>, id: Id, due: Instant)
    requires Unique(rows) && Bounded(rows) && RowOf(rows, id).None? && LiveCount(rows) < MAX_PENDING_REMINDERS
    ensures var rows' := Retained(rows) + [NewRow(Ask(id, due))]; Unique(rows') && Bounded(rows') && Fits(rows')
  {
    var r := Ask(id, due);
    AskIsWritten(rows, id, due);
    hide LiveCount;
    WriteIsBounded(rows, r);
    BoundedFits(Retained(rows) + [NewRow(r)]);
    RowOfRetained(rows, id);
    RowOfAppend(Retained(rows), NewRow(r), id);
  }

  /** A free id is accepted while there is room; the rows kept come first. */
  lemma RunOne(s: State, e: Event)
    ensures Run(s, [e]) == Next(s, e)
  {
    hide Next;
    assert [e][..0] == [] && Run(s, []) == s;
  }

  lemma SchedulesIt(s: State, rows: seq<Row>, id: Id, due: Instant)
    requires Quiet(s, rows) && RowOf(rows, id).None? && LiveCount(rows) < MAX_PENDING_REMINDERS
    ensures Quiet(Run(s, [Schedule(Ask(id, due), Confirmed)]), Retained(rows) + [NewRow(Ask(id, due))])
  {
    RunOne(s, Schedule(Ask(id, due), Confirmed));
    hide Run, Next, Decide, Retained, LiveCount, Fits, Bounded, Unique, RowOf, NewRow, Ask;
    AskIsWritten(rows, id, due);
    AskKeepsBounds(rows, id, due);
    ScheduleInStep(s, Ask(id, due), Confirmed);
  }

  // ---------------------------------------------------------------- 769 delivered reminders

  predicate AllDelivered(rows: seq<Row>, n: nat) {
    |rows| == n && forall i :: 0 <= i < n ==> rows[i].Tombstone? && rows[i].id < n
  }

  lemma {:induction false} NoneLive(rows: seq<Row>)
    requires forall i :: 0 <= i < |rows| ==> rows[i].Tombstone?
    ensures LiveCount(rows) == 0
  {
    if rows != [] { NoneLive(rows[..|rows| - 1]); }
  }

  /** Like `Run(s, events)` with an end that satisfies `Quiet`, for some events. */
  ghost predicate Reaches(s: State, rows: seq<Row>) {
    exists events :: Quiet(Run(s, events), rows)
  }

  lemma ReachesOnce(s: State, rows: seq<Row>, id: Id, due: Instant)
    requires Reaches(s, rows) && RowOf(rows, id).None? && LiveCount(rows) < MAX_PENDING_REMINDERS
    ensures Reaches(s, Retained(rows) + [NewRow(Ask(id, due))])
  {
    var events :| Quiet(Run(s, events), rows);
    hide Run, Quiet, Retained, LiveCount;
    SchedulesIt(Run(s, events), rows, id, due);
    RunAppend(s, events, [Schedule(Ask(id, due), Confirmed)]);
  }

  /** The rows of some delivery of row `i`. */
  predicate Delivered(rows: seq<Row>, rows': seq<Row>, i: nat) {
    i < |rows| && |rows'| == |rows| && rows'[i].Tombstone? && rows'[i].id == rows[i].id
    && forall j :: 0 <= j < |rows| && j != i ==> rows'[j] == rows[j]
  }

  lemma ReachesDelivery(s: State, rows: seq<Row>, i: nat, now: Instant) returns (rows': seq<Row>)
    requires Reaches(s, rows) && OnlyDue(rows, i, now)
    ensures Reaches(s, rows') && Delivered(rows, rows', i)
  {
    var events :| Quiet(Run(s, events), rows);
    var s1 := Run(s, events);
    rows' := AfterDelivery(s1.settings, rows, i, now);
    hide Run, Quiet, OnlyDue;
    DeliversIt(s1, rows, i, now);
    RunAppend(s, events, Delivery(s1, now));
  }

  lemma NotUsedYet(rows: seq<Row>, n: nat)
    requires AllDelivered(rows, n) && n < 768
    ensures RowOf(rows, n).None? && Retained(rows) == rows
  {
    assert RowOf(rows, n).None?;
  }

  lemma {:induction false} ReachesDelivered(s: State, n: nat) returns (rows: seq<Row>)
    requires n <= 768 && Reaches(s, [])
    ensures Reaches(s, rows) && AllDelivered(rows, n)
  {
    if n == 0 {
      rows := [];
    } else {
      hide Reaches, LiveCount;
      var before := ReachesDelivered(s, n - 1);
      NoneLive(before);
      NotUsedYet(before, n - 1);
      hide RowOf, Retained;
      ReachesOnce(s, before, n - 1, 1);
      rows := ReachesDelivery(s, before + [NewRow(Ask(n - 1, 1))], n - 1, 1);
    }
  }

  /** Of 768 delivered rows the oldest makes room. */
  lemma OneMakesRoom(rows: seq<Row>)
    requires AllDelivered(rows, 768)
    ensures |Retained(rows)| == 767 && forall x :: x in Retained(rows) ==> x.Tombstone? && x.id < 768
  {
    NoneLive(rows);
    RetainedIn(rows);
    var fewer := Without(rows, OldestIndex(rows));
    LiveCountWithout(rows, OldestIndex(rows));
    assert Retained(rows) == Retained(fewer) == fewer;
  }

  /** 767 delivered rows and two live ones with different due times. */
  predicate TwoLeft(rows: seq<Row>) {
    && |rows| == 769 && (forall i :: 0 <= i < 767 ==> rows[i].Tombstone?)
    && rows[767] == NewRow(Ask(768, 1)) && rows[768] == NewRow(Ask(769, 2))
  }

  lemma ReachesTwoLeft(s: State) returns (rows: seq<Row>)
    requires Reaches(s, [])
    ensures Reaches(s, rows) && TwoLeft(rows)
  {
    hide Reaches, Retained, LiveCount;
    var before := ReachesDelivered(s, 768);
    NoneLive(before);
    OneMakesRoom(before);
    var kept := Retained(before);
    assert forall i :: 0 <= i < |kept| ==> kept[i] in kept;
    ReachesOnce(s, before, 768, 1);
    var a := kept + [NewRow(Ask(768, 1))];
    NoneLive(kept);
    LiveCountConcat(kept, [NewRow(Ask(768, 1))]);
    LiveCountOne(NewRow(Ask(768, 1)));
    ReachesOnce(s, a, 769, 2);
    assert Retained(a) == a by { OneLiveStays(kept, NewRow(Ask(768, 1))); }
    rows := a + [NewRow(Ask(769, 2))];
  }

  /** 767 delivered rows and a live one leave room for more. */
  lemma OneLiveStays(kept: seq<Row>, row: Row)
    requires |kept| == 767 && row.Live?
    ensures Retained(kept + [row]) == kept + [row]
  {
    DeliveredAtMost(kept);
    assert (kept + [row])[..767] == kept;
  }

  lemma {:induction false} DeliveredAtMost(rows: seq<Row>)
    ensures DeliveredCount(rows) <= |rows|
    decreases |rows|
  {
    if rows != [] { DeliveredAtMost(rows[..|rows| - 1]); }
  }

  /** A run without a single failure ends with 769 delivered rows in the file, and after a crash
      the scheduler does not start again. */
  lemma TooManyDelivered(settings: Settings)
    ensures exists events ::
              var s := Run(Initial(settings), events);
              DeliveredCount(s.store.disk) == 769 && !Next(Next(s, Crash), Start).loaded
  {
    var s0 := Initial(settings);
    assert Reaches(s0, []) by {
      assert [Start][..0] == [] && Run(s0, []) == s0;
      assert Quiet(Run(s0, [Start]), []);
    }
    var rows := ReachesTwoLeft(s0);
    hide LiveCount;
    var rows1 := ReachesDelivery(s0, rows, 767, 1);
    var rows2 := ReachesDelivery(s0, rows1, 768, 2);
    NoneLive(rows2);
    var events :| Quiet(Run(s0, events), rows2);
    hide Delivered, Bounded, Unique, Run;
    RestartsExactlyWhen(settings, events);
  }
}
