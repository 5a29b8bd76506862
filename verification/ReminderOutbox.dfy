/**
 The rows of the durable reminder outbox of reminder_scheduler.py and what each
 operation does to them.  Instants and delays are whole milliseconds.
 */
module ReminderOutbox {
  import opened Options

  /** An operation id together with its SHA-256 digest; the digest is taken as injective, so ids
      are numbered in the order of their digests. */
  type Id = nat
  type Instant = int

  /** What a payload digest hashes, again taken as injective. */
  datatype Payload = Payload(schedule: string, text: string)

  datatype Receipt = Queued | Acknowledged | HistoricalAcknowledgement

  /** `Live` is the state `pending`, or `in_flight` when `inFlight` is set. */
  datatype Row =
    | Live(id: Id, payload: Payload, due: Instant, inFlight: bool, created: Instant, updated: Instant,
           attempts: nat, last: Option<Instant>, next: Instant)
    | Tombstone(id: Id, payload: Payload, completed: Instant, attempts: nat, status: Receipt)

  const MAX_PENDING_REMINDERS := 256
  const MAX_TOMBSTONES := 768
  const MAX_STORE_BYTES := 1_048_576
  const MAX_ATTEMPT_COUNT: nat := 9_007_199_254_740_991
  const MAX_DUE_PER_TICK := 16
  const MAX_FUTURE := 10 * 366 * 24 * 60 * 60 * 1000
  const TEXT_MAX_CHARS := 160
  const TEXT_MAX_BYTES := 640
  const SCHEDULE_MAX_CHARS := 128
  const SCHEDULE_MAX_BYTES := 256

  // ---------------------------------------------------------------- finding rows

  /** The place of the first row of `id`, or the length when there is none. */
  function IndexOf(rows: seq<Row>, id: Id): (i: nat)
    ensures i <= |rows|
    ensures i < |rows| ==> rows[i].id == id
    ensures forall j :: 0 <= j < i ==> rows[j].id != id
  {
    if rows == [] || rows[0].id == id then 0 else 1 + IndexOf(rows[1..], id)
  }

  function RowOf(rows: seq<Row>, id: Id): (r: Option<Row>)
    ensures r.Some? ==> r.value in rows && r.value.id == id
    ensures r.None? <==> forall i :: 0 <= i < |rows| ==> rows[i].id != id
  {
    var i := IndexOf(rows, id);
    if i < |rows| then Some(rows[i]) else None
  }

  predicate Unique(rows: seq<Row>) {
    forall i, j :: 0 <= i < j < |rows| ==> rows[i].id != rows[j].id
  }

  lemma RowAt(rows: seq<Row>, i: nat)
    requires Unique(rows) && i < |rows|
    ensures IndexOf(rows, rows[i].id) == i && RowOf(rows, rows[i].id) == Some(rows[i])
  {
  }

  /** Replacing a row by one of the same id changes nothing else. */
  lemma RowOfUpdate(rows: seq<Row>, i: nat, row: Row, id: Id)
    requires Unique(rows) && i < |rows| && row.id == rows[i].id
    ensures Unique(rows[i := row])
    ensures RowOf(rows[i := row], id) == if id == row.id then Some(row) else RowOf(rows, id)
  {
    var updated := rows[i := row];
    if id == row.id {
      RowAt(updated, i);
    } else if RowOf(rows, id).Some? {
      var j := IndexOf(rows, id);
      RowAt(rows, j);
      assert updated[j] == rows[j];
      RowAt(updated, j);
    } else {
      assert forall k :: 0 <= k < |updated| ==> updated[k].id == rows[k].id;
    }
  }

  lemma RowOfAppend(rows: seq<Row>, row: Row, id: Id)
    requires Unique(rows) && RowOf(rows, row.id).None?
    ensures Unique(rows + [row])
    ensures RowOf(rows + [row], id) == if id == row.id then Some(row) else RowOf(rows, id)
  {
    var longer := rows + [row];
    assert longer[|rows|] == row;
    if id == row.id {
      RowAt(longer, |rows|);
    } else if RowOf(rows, id).Some? {
      var j := IndexOf(rows, id);
      assert longer[j] == rows[j];
      RowAt(longer, j);
    } else {
      assert forall k :: 0 <= k < |longer| ==> longer[k].id != id;
    }
  }

  function Without(rows: seq<Row>, i: nat): (r: seq<Row>)
    requires i < |rows|
  {
    rows[..i] + rows[i + 1..]
  }

  lemma RowOfWithout(rows: seq<Row>, i: nat, id: Id)
    requires Unique(rows) && i < |rows|
    ensures Unique(Without(rows, i))
    ensures RowOf(Without(rows, i), id) == if id == rows[i].id then None else RowOf(rows, id)
  {
    var fewer := Without(rows, i);
    assert forall k :: 0 <= k < |fewer| ==> fewer[k] == if k < i then rows[k] else rows[k + 1];
    if id != rows[i].id && RowOf(rows, id).Some? {
      var j := IndexOf(rows, id);
      var k := if j < i then j else j - 1;
      assert fewer[k] == rows[j];
      RowAt(fewer, k);
    } else {
      assert forall k :: 0 <= k < |fewer| ==> fewer[k].id != id;
    }
  }

  // ---------------------------------------------------------------- counting rows

  /** The rows that are not delivered. */
  function LiveCount(rows: seq<Row>): (n: nat)
    ensures n <= |rows|
  {
    if rows == [] then 0 else LiveCount(rows[..|rows| - 1]) + if rows[|rows| - 1].Live? then 1 else 0
  }

  function DeliveredCount(rows: seq<Row>): nat {
    |rows| - LiveCount(rows)
  }

  lemma {:induction false} LiveCountConcat(a: seq<Row>, b: seq<Row>)
    ensures LiveCount(a + b) == LiveCount(a) + LiveCount(b)
    decreases |b|
  {
    if b == [] {
      assert a + b == a;
    } else {
      var n := |b| - 1;
      LiveCountConcat(a, b[..n]);
      assert (a + b)[..|a + b| - 1] == a + b[..n];
    }
  }

  lemma LiveCountSplit(rows: seq<Row>, i: nat)
    requires i < |rows|
    ensures LiveCount(rows) == LiveCount(rows[..i]) + (if rows[i].Live? then 1 else 0) + LiveCount(rows[i + 1..])
  {
    assert rows[..i + 1][..i] == rows[..i];
    assert LiveCount(rows[..i + 1]) == LiveCount(rows[..i]) + if rows[i].Live? then 1 else 0;
    hide LiveCount;
    assert rows == rows[..i + 1] + rows[i + 1..];
    LiveCountConcat(rows[..i + 1], rows[i + 1..]);
  }

  lemma LiveCountOne(row: Row)
    ensures LiveCount([row]) == if row.Live? then 1 else 0
  {
    assert [row][..0] == [];
  }

  lemma LiveCountUpdate(rows: seq<Row>, i: nat, row: Row)
    requires i < |rows|
    ensures LiveCount(rows[i := row]) == LiveCount(rows) - (if rows[i].Live? then 1 else 0) + (if row.Live? then 1 else 0)
  {
    LiveCountSplit(rows, i);
    LiveCountSplit(rows[i := row], i);
    assert rows[i := row][..i] == rows[..i] && rows[i := row][i + 1..] == rows[i + 1..];
  }

  lemma LiveCountWithout(rows: seq<Row>, i: nat)
    requires i < |rows|
    ensures LiveCount(Without(rows, i)) == LiveCount(rows) - if rows[i].Live? then 1 else 0
  {
    LiveCountSplit(rows, i);
    LiveCountConcat(rows[..i], rows[i + 1..]);
  }

  lemma {:induction false} SomeDelivered(rows: seq<Row>)
    requires DeliveredCount(rows) > 0
    ensures exists i :: 0 <= i < |rows| && rows[i].Tombstone?
  {
    if !rows[|rows| - 1].Tombstone? {
      SomeDelivered(rows[..|rows| - 1]);
      var i :| 0 <= i < |rows| - 1 && rows[..|rows| - 1][i].Tombstone?;
      assert rows[i].Tombstone?;
    }
  }

  // ---------------------------------------------------------------- eviction

  /** The place of the delivered row that completed first, the earlier one of equals. */
  function OldestIndex(rows: seq<Row>): (i: nat)
    requires exists k :: 0 <= k < |rows| && rows[k].Tombstone?
    ensures i < |rows| && rows[i].Tombstone?
    ensures forall k :: 0 <= k < |rows| && rows[k].Tombstone? ==> rows[i].completed <= rows[k].completed
    ensures forall k :: 0 <= k < i && rows[k].Tombstone? ==> rows[i].completed < rows[k].completed
  {
    var n := |rows| - 1;
    if exists k :: 0 <= k < n && rows[k].Tombstone? then
      var k :| 0 <= k < n && rows[k].Tombstone?;
      assert rows[..n][k].Tombstone?;
      var i := OldestIndex(rows[..n]);
      assert rows[..n][i] == rows[i];
      assert forall j :: 0 <= j < n ==> rows[..n][j] == rows[j];
      if rows[n].Tombstone? && rows[n].completed < rows[i].completed then n else i
    else n
  }

  /** Delivered rows make room, the oldest first, until fewer than MAX_TOMBSTONES are left. */
  function Retained(rows: seq<Row>): (r: seq<Row>)
    ensures DeliveredCount(r) < MAX_TOMBSTONES
    ensures DeliveredCount(rows) < MAX_TOMBSTONES ==> r == rows
    ensures LiveCount(r) == LiveCount(rows)
    decreases |rows|
  {
    if DeliveredCount(rows) < MAX_TOMBSTONES then rows
    else
      SomeDelivered(rows);
      LiveCountWithout(rows, OldestIndex(rows));
      Retained(Without(rows, OldestIndex(rows)))
  }

  /** Eviction takes only delivered rows, and leaves every other row as it is. */
  lemma {:induction false} RowOfRetained(rows: seq<Row>, id: Id)
    requires Unique(rows)
    ensures Unique(Retained(rows))
    ensures RowOf(Retained(rows), id) == RowOf(rows, id)
            || (RowOf(Retained(rows), id).None? && RowOf(rows, id).Some? && RowOf(rows, id).value.Tombstone?)
    decreases |rows|
  {
    if DeliveredCount(rows) >= MAX_TOMBSTONES {
      SomeDelivered(rows);
      var i := OldestIndex(rows);
      RowOfWithout(rows, i, id);
      RowAt(rows, i);
      RowOfRetained(Without(rows, i), id);
    }
  }

  lemma WithoutIn(rows: seq<Row>, i: nat)
    requires i < |rows|
    ensures forall x :: x in rows ==> x in Without(rows, i) || x == rows[i]
    ensures forall x :: x in Without(rows, i) ==> x in rows
  {
    var fewer := Without(rows, i);
    assert forall k :: 0 <= k < |rows| && k != i ==> rows[k] == fewer[if k < i then k else k - 1];
  }

  /** What goes completed no later than any delivered row that stays, and no more goes than it takes. */
  lemma {:induction false} OldestGoFirst(rows: seq<Row>)
    ensures forall x, y :: x in rows && x.Tombstone? && x !in Retained(rows) && y in Retained(rows) && y.Tombstone? ==>
                             x.completed <= y.completed
    ensures DeliveredCount(rows) >= MAX_TOMBSTONES ==> DeliveredCount(Retained(rows)) == MAX_TOMBSTONES - 1
    decreases |rows|
  {
    if DeliveredCount(rows) >= MAX_TOMBSTONES {
      SomeDelivered(rows);
      var i := OldestIndex(rows);
      LiveCountWithout(rows, i);
      WithoutIn(rows, i);
      OldestGoFirst(Without(rows, i));
      RetainedIn(Without(rows, i));
      assert forall y :: y in rows && y.Tombstone? ==> rows[i].completed <= y.completed;
      hide LiveCount, OldestIndex;
    }
  }

  /** Eviction keeps a subsequence of the rows. */
  lemma {:induction false} RetainedIn(rows: seq<Row>)
    ensures forall x :: x in Retained(rows) ==> x in rows
    decreases |rows|
  {
    if DeliveredCount(rows) >= MAX_TOMBSTONES {
      SomeDelivered(rows);
      RetainedIn(Without(rows, OldestIndex(rows)));
    }
  }

  // ---------------------------------------------------------------- scheduling

  predicate PlainChar(c: char) {
    c > '\U{1F}' && !('\U{7F}' <= c <= '\U{9F}')
  }

  function Utf8(c: char): nat {
    if c < '\U{80}' then 1 else if c < '\U{800}' then 2 else if c < '\U{10000}' then 3 else 4
  }

  function Utf8Size(s: string): nat {
    if s == "" then 0 else Utf8(s[0]) + Utf8Size(s[1..])
  }

  /** The part of `_safe_line` that bounds a line; the other character and markup filters are in
      the flag `clean` of a request. */
  predicate SafeLine(s: string, maxChars: nat, maxBytes: nat) {
    0 < |s| <= maxChars && Utf8Size(s) <= maxBytes && forall k :: 0 <= k < |s| ==> PlainChar(s[k])
  }

  predicate SafePayload(p: Payload) {
    SafeLine(p.text, TEXT_MAX_CHARS, TEXT_MAX_BYTES) && SafeLine(p.schedule, SCHEDULE_MAX_CHARS, SCHEDULE_MAX_BYTES)
  }

  /** A call of `schedule`: `due` is what the one-shot parser makes of the schedule, and `now`
      what the clock says. */
  datatype Request = Request(id: Id, payload: Payload, clean: bool, due: Option<Instant>, now: Instant)

  datatype Reply =
    | Scheduled(due: Instant)
    | HistoricalScheduled(due: Instant)
    | HistoricalDelivered(status: Receipt)
    | InvalidInput
    | Conflict
    | Full
    | Inactive
    | TooLarge
    | WriteUnconfirmed

  /** The reply that is already settled, or the rows to write. */
  datatype Decision = Answer(reply: Reply) | Write(rows: seq<Row>)

  function NewRow(r: Request): Row
    requires r.due.Some?
  {
    Live(r.id, r.payload, r.due.value, false, r.now, r.now, 0, None, r.due.value)
  }

  function Decide(rows: seq<Row>, r: Request): Decision {
    var existing := RowOf(rows, r.id);
    if !r.clean || !SafePayload(r.payload) then Answer(InvalidInput)
    else if existing.Some? then
      if existing.value.payload != r.payload then Answer(Conflict)
      else if existing.value.Tombstone? then Answer(HistoricalDelivered(existing.value.status))
      else Answer(HistoricalScheduled(existing.value.due))
    else if r.due.None? || r.due.value <= r.now || r.due.value - r.now > MAX_FUTURE then Answer(InvalidInput)
    else if LiveCount(rows) >= MAX_PENDING_REMINDERS then Answer(Full)
    else Write(Retained(rows) + [NewRow(r)])
  }

  // ---------------------------------------------------------------- delivering

  /** The retry settings as given; the constructor raises them to 50 ms and to each other. */
  datatype Settings = Settings(retryBase: int, retryMax: int) {
    function Base(): int { if retryBase < 50 then 50 else retryBase }
    function Max(): int { if retryMax < Base() then Base() else retryMax }
  }

  function Pow2(n: nat): nat {
    if n == 0 then 1 else 2 * Pow2(n - 1)
  }

  function RetryDelay(settings: Settings, attempts: nat): int {
    var exponent := if attempts <= 1 then 0 else if attempts - 1 > 16 then 16 else attempts - 1;
    var delay := settings.Base() * Pow2(exponent);
    if delay < settings.Max() then delay else settings.Max()
  }

  lemma {:induction false} Pow2Grows(m: nat, n: nat)
    requires m <= n
    ensures 1 <= Pow2(m) <= Pow2(n)
    decreases n
  {
    if n > 0 {
      Pow2Grows(if m == 0 then 0 else m - 1, n - 1);
    }
  }

  /** The first attempt waits the base, each of the next 16 twice as long as the one before, always
      capped by the maximum. */
  lemma {:induction false} RetryDelayDoubles(settings: Settings, n: nat)
    ensures RetryDelay(settings, 0) == RetryDelay(settings, 1) == settings.Base()
    ensures 1 <= n < 17 ==> RetryDelay(settings, n + 1)
                            == if 2 * RetryDelay(settings, n) < settings.Max() then 2 * RetryDelay(settings, n) else settings.Max()
  {
    assert Pow2(0) == 1;
    if 1 <= n < 17 {
      assert Pow2(n) == 2 * Pow2(n - 1);
      Pow2Grows(n - 1, n);
      Scaled(settings.Base(), 1, Pow2(n - 1));
      assert settings.Base() * Pow2(n) == 2 * (settings.Base() * Pow2(n - 1));
    }
  }

  /** Every retry waits at least 50 ms and at least as long as the one before, never longer than
      the maximum, and exactly the maximum or 65536 times the base from the 17th attempt on. */
  lemma RetryDelayGrows(settings: Settings, m: nat, n: nat)
    requires m <= n
    ensures 50 <= settings.Base() <= RetryDelay(settings, m) <= RetryDelay(settings, n) <= settings.Max()
    ensures 17 <= m ==> RetryDelay(settings, m) == RetryDelay(settings, n)
  {
    var e := if m <= 1 then 0 else if m - 1 > 16 then 16 else m - 1;
    var f := if n <= 1 then 0 else if n - 1 > 16 then 16 else n - 1;
    Pow2Grows(e, f);
    Scaled(settings.Base(), 1, Pow2(e));
    Scaled(settings.Base(), Pow2(e), Pow2(f));
  }

  lemma Scaled(base: int, a: nat, b: nat)
    requires base > 0 && a <= b
    ensures base * a <= base * b
  {
  }

  predicate DueBy(row: Row, now: Instant) {
    row.Live? && row.next <= now
  }

  function ClaimedRow(settings: Settings, row: Row, now: Instant): Row
    requires row.Live?
  {
    var attempts := if row.attempts < MAX_ATTEMPT_COUNT then row.attempts + 1 else MAX_ATTEMPT_COUNT;
    row.(inFlight := true, updated := now, attempts := attempts, last := Some(now),
         next := now + RetryDelay(settings, attempts))
  }

  function DeferredRow(row: Row, now: Instant): Row
    requires row.Live?
  {
    row.(inFlight := false, updated := now)
  }

  function DeliveredRow(row: Row, status: Receipt, now: Instant): Row
    requires row.Live?
  {
    Tombstone(row.id, row.payload, now, row.attempts, status)
  }

  /** The order in which due rows are attempted. */
  predicate Before(a: Row, b: Row)
    requires a.Live? && b.Live?
  {
    a.next < b.next || (a.next == b.next && a.id < b.id)
  }

  predicate InOrder(rows: seq<Row>) {
    && (forall i :: 0 <= i < |rows| ==> rows[i].Live?)
    && (forall i, j :: 0 <= i < j < |rows| ==> !Before(rows[j], rows[i]))
  }

  /** Where a row belongs among rows in order: behind its equals. */
  function PlaceFor(rows: seq<Row>, row: Row): (p: nat)
    requires InOrder(rows) && row.Live?
    ensures p <= |rows|
    ensures forall i :: 0 <= i < p ==> !Before(row, rows[i])
    ensures forall i :: p <= i < |rows| ==> Before(row, rows[i])
  {
    if rows == [] || Before(row, rows[0]) then 0
    else
      var p := PlaceFor(rows[1..], row);
      assert forall i :: 1 <= i < |rows| ==> rows[1..][i - 1] == rows[i];
      1 + p
  }

  lemma PlacedInOrder(rows: seq<Row>, row: Row, p: nat)
    requires InOrder(rows) && row.Live? && p <= |rows|
    requires forall i :: 0 <= i < p ==> !Before(row, rows[i])
    requires forall i :: p <= i < |rows| ==> Before(row, rows[i])
    ensures InOrder(rows[..p] + [row] + rows[p..])
  {
    var r := rows[..p] + [row] + rows[p..];
    assert forall i :: 0 <= i < |r| ==> r[i] == if i < p then rows[i] else if i == p then row else rows[i - 1];
  }

  lemma PlacedIsAdded(rows: seq<Row>, row: Row, p: nat)
    requires p <= |rows|
    ensures forall x :: x in rows[..p] + [row] + rows[p..] <==> x in rows || x == row
  {
    assert rows == rows[..p] + rows[p..];
  }

  /** A row put in its place. */
  function Inserted(rows: seq<Row>, row: Row): (r: seq<Row>)
    requires InOrder(rows) && row.Live?
    ensures InOrder(r) && |r| == |rows| + 1
    ensures forall x :: x in r <==> x in rows || x == row
  {
    var p := PlaceFor(rows, row);
    PlacedInOrder(rows, row, p);
    PlacedIsAdded(rows, row, p);
    rows[..p] + [row] + rows[p..]
  }

  /** The due rows in the order in which they are attempted. */
  function DueRows(rows: seq<Row>, now: Instant): (r: seq<Row>)
    ensures InOrder(r)
    ensures forall x :: x in r <==> x in rows && DueBy(x, now)
  {
    if rows == [] then []
    else
      var n := |rows| - 1;
      assert rows == rows[..n] + [rows[n]];
      var front := DueRows(rows[..n], now);
      if DueBy(rows[n], now) then Inserted(front, rows[n]) else front
  }

  lemma InsertedDiffers(rows: seq<Row>, row: Row)
    requires InOrder(rows) && row.Live? && Unique(rows) && RowOf(rows, row.id).None?
    ensures Unique(Inserted(rows, row))
  {
    var p := PlaceFor(rows, row);
    var r := Inserted(rows, row);
    hide PlaceFor, InOrder;
    assert forall i :: 0 <= i < |r| ==> r[i] == if i < p then rows[i] else if i == p then row else rows[i - 1];
  }

  lemma {:induction false} DueRowsDiffer(rows: seq<Row>, now: Instant)
    requires Unique(rows)
    ensures Unique(DueRows(rows, now))
  {
    if rows != [] {
      var n := |rows| - 1;
      var front := DueRows(rows[..n], now);
      DueRowsDiffer(rows[..n], now);
      assert forall x :: x in front ==> x in rows[..n];
      hide InOrder, Inserted;
      if DueBy(rows[n], now) {
        assert RowOf(front, rows[n].id).None?;
        InsertedDiffers(front, rows[n]);
      }
    }
  }

  function IdsOf(rows: seq<Row>): (r: seq<Id>)
    ensures |r| == |rows| && forall i :: 0 <= i < |r| ==> r[i] == rows[i].id
    ensures forall x :: x in rows ==> x.id in r
  {
    var r := seq(|rows|, i requires 0 <= i < |rows| => rows[i].id);
    assert forall i :: 0 <= i < |rows| ==> rows[i].id == r[i];
    r
  }

  /** The due rows that one tick attempts. */
  function Picked(rows: seq<Row>, now: Instant): (r: seq<Row>)
  {
    var due := DueRows(rows, now);
    if |due| <= MAX_DUE_PER_TICK then due else due[..MAX_DUE_PER_TICK]
  }

  /** `_due_hashes`: the ids of the first MAX_DUE_PER_TICK due rows. */
  function DueIds(rows: seq<Row>, now: Instant): (r: seq<Id>)
    ensures |r| <= MAX_DUE_PER_TICK
  {
    IdsOf(Picked(rows, now))
  }

  lemma PickedMeans(rows: seq<Row>, now: Instant)
    requires Unique(rows)
    ensures var picked := Picked(rows, now);
            && InOrder(picked) && Unique(picked)
            && (forall x :: x in picked ==> x in rows && DueBy(x, now))
            && (forall r :: r in rows && DueBy(r, now) && r !in picked ==>
                  |picked| == MAX_DUE_PER_TICK && forall i :: 0 <= i < |picked| ==> Before(picked[i], r))
  {
    var due := DueRows(rows, now);
    var picked := Picked(rows, now);
    DueRowsDiffer(rows, now);
    assert forall i :: 0 <= i < |picked| ==> picked[i] == due[i] && due[i] in due;
    forall r | r in rows && DueBy(r, now) && r !in picked
      ensures |picked| == MAX_DUE_PER_TICK && forall i :: 0 <= i < |picked| ==> Before(picked[i], r)
    {
      assert r in due;
      var k :| 0 <= k < |due| && due[k] == r;
      assert forall i :: 0 <= i < |picked| ==> due[i].id != r.id && !Before(r, due[i]);
    }
  }

  lemma RowIn(rows: seq<Row>, row: Row)
    requires Unique(rows) && row in rows
    ensures RowOf(rows, row.id) == Some(row)
  {
    var k :| 0 <= k < |rows| && rows[k] == row;
    RowAt(rows, k);
  }

  /** Only due rows are picked, each once, and a due row is passed over only for MAX_DUE_PER_TICK
      others that come before it. */
  lemma DueIdsMeans(rows: seq<Row>, now: Instant)
    requires Unique(rows)
    ensures var ids := DueIds(rows, now);
            && (forall i, j :: 0 <= i < j < |ids| ==> ids[i] != ids[j])
            && (forall i :: 0 <= i < |ids| ==> RowOf(rows, ids[i]).Some? && DueBy(RowOf(rows, ids[i]).value, now))
            && (forall r :: r in rows && DueBy(r, now) && r.id !in ids ==>
                  |ids| == MAX_DUE_PER_TICK
                  && forall i :: 0 <= i < |ids| ==> Before(RowOf(rows, ids[i]).value, r))
  {
    PickedMeans(rows, now);
    hide DueRows;
    var picked := Picked(rows, now);
    forall i | 0 <= i < |picked| ensures RowOf(rows, picked[i].id) == Some(picked[i]) && DueBy(picked[i], now) {
      assert picked[i] in picked;
      RowIn(rows, picked[i]);
    }
  }
}
