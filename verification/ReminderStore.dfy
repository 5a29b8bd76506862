/**
 The reminder store file: how many bytes the rows take as JSON, how a write to the file ends,
 and which files a restart accepts.
 */
module ReminderStore {
  import opened ReminderOutbox

  // ---------------------------------------------------------------- the size of the document

  /** The bytes of one character inside a JSON string written with `ensure_ascii=False`. */
  function Escaped(c: char): nat {
    if c == '"' || c == '\\' || c == '\n' || c == '\r' || c == '\t' || c == '\U{8}' || c == '\U{C}' then 2
    else if c < ' ' then 6
    else Utf8(c)
  }

  function EscapedSize(s: string): nat {
    if s == "" then 0 else Escaped(s[0]) + EscapedSize(s[1..])
  }

  function Digits(n: nat): nat {
    if n < 10 then 1 else 1 + Digits(n / 10)
  }

  /** A quoted string of `n` bytes. */
  function Quoted(n: nat): nat { n + 2 }

  /** A quoted key, a colon and a value of `n` bytes. */
  function Field(key: string, n: nat): nat { Quoted(|key|) + 1 + n }

  const INSTANT_BYTES: nat := 24
  const DIGEST_BYTES: nat := 64
  const ID_BYTES: nat := 64

  function Stamp(): nat { Quoted(INSTANT_BYTES) }

  function ReceiptName(status: Receipt): string {
    match status
    case Queued => "queued"
    case Acknowledged => "acknowledged"
    case HistoricalAcknowledgement => "historical_acknowledgement"
  }

  /** The bytes of a row as a compact JSON object, an operation id counted at its full length. */
  function RowSize(row: Row): nat {
    match row
    case Live(_, payload, _, inFlight, _, _, attempts, last, _) =>
      2 + 11
      + Field("attempt_count", Digits(attempts)) + Field("created_at", Stamp()) + Field("due_at", Stamp())
      + Field("last_attempt_at", if last.Some? then Stamp() else |"null"|) + Field("next_attempt_at", Stamp())
      + Field("operation_hash", Quoted(DIGEST_BYTES)) + Field("operation_id", Quoted(ID_BYTES))
      + Field("payload_digest", Quoted(DIGEST_BYTES)) + Field("schedule", Quoted(EscapedSize(payload.schedule)))
      + Field("state", Quoted(if inFlight then |"in_flight"| else |"pending"|))
      + Field("text", Quoted(EscapedSize(payload.text))) + Field("updated_at", Stamp())
    case Tombstone(_, _, _, attempts, status) =>
      2 + 5
      + Field("attempt_count", Digits(attempts)) + Field("completed_at", Stamp())
      + Field("operation_hash", Quoted(DIGEST_BYTES)) + Field("payload_digest", Quoted(DIGEST_BYTES))
      + Field("receipt_status", Quoted(|ReceiptName(status)|)) + Field("state", Quoted(|"delivered"|))
  }

  /** The rows of the array, each with the comma before or the bracket around it. */
  function RowsSize(rows: seq<Row>): nat {
    if rows == [] then 0 else RowsSize(rows[..|rows| - 1]) + RowSize(rows[|rows| - 1]) + 1
  }

  /** The bytes of `_serialize` before its own check. */
  function StoreSize(rows: seq<Row>): nat {
    2 + 1 + Field("entries", 2 + RowsSize(rows)) + Field("version", 1) - if rows == [] then 0 else 1
  }

  // ---------------------------------------------------------------- writing and reading

  /** The memory of the scheduler and the file. */
  datatype Store = Store(memory: seq<Row>, disk: seq<Row>)

  /** How an atomic write ends: confirmed, or failed with the old or with the new file in place. */
  datatype Outcome = Confirmed | FailedOld | FailedNew

  predicate Fits(rows: seq<Row>) {
    StoreSize(rows) <= MAX_STORE_BYTES
  }

  /** `_commit`: memory follows the file only when the write was confirmed. */
  function Commit(store: Store, rows: seq<Row>, o: Outcome): Store {
    if !Fits(rows) then store
    else match o
         case Confirmed => Store(rows, rows)
         case FailedOld => store
         case FailedNew => store.(disk := rows)
  }

  predicate RowAcceptable(row: Row) {
    row.attempts <= MAX_ATTEMPT_COUNT && (row.Live? ==> SafePayload(row.payload))
  }

  /** `_read_store` accepts the file. */
  predicate Acceptable(rows: seq<Row>) {
    && Fits(rows)
    && |rows| <= MAX_PENDING_REMINDERS + MAX_TOMBSTONES
    && (forall i :: 0 <= i < |rows| ==> RowAcceptable(rows[i]))
    && Unique(rows)
    && LiveCount(rows) <= MAX_PENDING_REMINDERS
    && DeliveredCount(rows) <= MAX_TOMBSTONES
  }

  // ---------------------------------------------------------------- what a reachable store needs

  lemma {:induction false} EscapedBounds(s: string)
    requires forall k :: 0 <= k < |s| ==> PlainChar(s[k])
    ensures EscapedSize(s) <= 4 * |s|
    ensures EscapedSize(s) <= 2 * Utf8Size(s)
  {
    if s != "" {
      EscapedBounds(s[1..]);
    }
  }

  function Pow10(n: nat): nat {
    if n == 0 then 1 else 10 * Pow10(n - 1)
  }

  lemma {:induction false} DigitsBound(n: nat, k: nat)
    requires k > 0 && n < Pow10(k)
    ensures Digits(n) <= k
    decreases k
  {
    if n >= 10 {
      DigitsBound(n / 10, k - 1);
    }
  }

  lemma AttemptDigits(attempts: nat)
    requires attempts <= MAX_ATTEMPT_COUNT
    ensures Digits(attempts) <= 16
  {
    assert Pow10(4) == 10_000;
    assert Pow10(8) == 100_000_000;
    assert Pow10(12) == 1_000_000_000_000;
    assert Pow10(16) == 10_000_000_000_000_000;
    DigitsBound(attempts, 16);
  }

  const LIVE_BYTES: nat := 1687
  const DELIVERED_BYTES: nat := 311

  /** No live row takes more than LIVE_BYTES and no delivered row more than DELIVERED_BYTES. */
  lemma RowSizeBound(row: Row)
    requires RowAcceptable(row)
    ensures RowSize(row) + 1 <= if row.Live? then LIVE_BYTES else DELIVERED_BYTES
  {
    hide Digits, EscapedSize, Utf8Size;
    AttemptDigits(row.attempts);
    if row.Live? {
      EscapedBounds(row.payload.text);
      EscapedBounds(row.payload.schedule);
    }
  }

  lemma {:induction false} RowsSizeBound(rows: seq<Row>)
    requires forall i :: 0 <= i < |rows| ==> RowAcceptable(rows[i])
    ensures RowsSize(rows) <= LIVE_BYTES * LiveCount(rows) + DELIVERED_BYTES * DeliveredCount(rows)
  {
    if rows != [] {
      RowsSizeBound(rows[..|rows| - 1]);
      RowSizeBound(rows[|rows| - 1]);
      hide RowSize;
    }
  }

  /** A store of at most 256 live rows and at most 1024 rows in all is never too large to write. */
  lemma {:induction false} BoundedStoresFit(rows: seq<Row>)
    requires forall i :: 0 <= i < |rows| ==> RowAcceptable(rows[i])
    requires LiveCount(rows) <= MAX_PENDING_REMINDERS && |rows| <= MAX_PENDING_REMINDERS + MAX_TOMBSTONES
    ensures Fits(rows) && StoreSize(rows) <= 670_745
  {
    RowsSizeBound(rows);
    hide RowsSize, LiveCount;
  }
}
