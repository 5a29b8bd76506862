/**
 The reminder scheduler of reminder_scheduler.py as a state machine over runs.

 Each event runs the code from one release of the state lock or one `await` to the next, or is
 a crash, a stop or a (re)start.  How a write ends, what the clock says, what the phone answers
 and when a message reaches it are in the event; an event that is not enabled changes nothing.
 */
module ReminderRuns {
  import opened Options
  import opened ReminderOutbox
  import opened ReminderStore

  /** What an id was accepted or delivered with. */
  datatype Binding = Binding(payload: Payload, due: Instant)

  /** What happened, in order: `schedule` answered `scheduled`, a delivery was called, or delivered
      rows were evicted from the file. */
  datatype Entry =
    | Accepted(id: Id, binding: Binding)
    | Sent(id: Id, binding: Binding)
    | Evicted(ids: set<Id>)

  /** A tick in progress: the ids still to try, and the one whose delivery is awaited. */
  datatype Tick = Tick(now: Instant, todo: seq<Id>, awaiting: Option<Id>)

  /** `phone` is what the phone has shown, `acked` what it has acknowledged and `bound` what each
      id stands for; no code reads `bound`, `acked` or `log`. */
  datatype State = State(
    settings: Settings,
    store: Store,
    loaded: bool,
    running: bool,
    tick: Option<Tick>,
    phone: map<Id, string>,
    bound: map<Id, Binding>,
    acked: set<(Id, Payload)>,
    log: seq<Entry>)

  datatype Event =
    | Schedule(request: Request, outcome: Outcome)
    | TickStart(now: Instant)
    | Claim(outcome: Outcome)
    | Arrive(k: nat)
    | Settle(receipt: Option<Receipt>, now: Instant, outcome: Outcome)
    | Stop
    | Start
    | Crash

  function Initial(settings: Settings): State {
    State(settings, Store([], []), false, false, None, map[], map[], {}, [])
  }

  function Ids(rows: seq<Row>): set<Id> {
    set i | 0 <= i < |rows| :: rows[i].id
  }

  /** The ids whose rows a schedule call has to evict. */
  function Gone(rows: seq<Row>): set<Id> {
    Ids(rows) - Ids(Retained(rows))
  }

  /** What `schedule` answers. */
  function ReplyFor(loaded: bool, rows: seq<Row>, r: Request, o: Outcome): Reply {
    if !loaded then Inactive
    else match Decide(rows, r)
         case Answer(reply) => reply
         case Write(rows') =>
           if !Fits(rows') then TooLarge
           else if o.Confirmed? && r.due.Some? then Scheduled(r.due.value) else WriteUnconfirmed
  }

  function ReplyTo(s: State, r: Request, o: Outcome): Reply {
    ReplyFor(s.loaded, s.store.memory, r, o)
  }

  function ScheduleNext(s: State, r: Request, o: Outcome): State {
    if !s.loaded || Decide(s.store.memory, r).Answer? || o.FailedOld? then s
    else
      var rows := Decide(s.store.memory, r).rows;
      var gone := Gone(s.store.memory);
      if !Fits(rows) then s
      else if o.FailedNew? || r.due.None? then
        s.(store := Commit(s.store, rows, o), bound := s.bound - gone, log := s.log + [Evicted(gone)])
      else
        var binding := Binding(r.payload, r.due.value);
        s.(store := Commit(s.store, rows, o), bound := (s.bound - gone)[r.id := binding],
           log := s.log + [Evicted(gone), Accepted(r.id, binding)])
  }

  /** Memory and file after `schedule`. */
  function ScheduledStore(store: Store, loaded: bool, r: Request, o: Outcome): Store {
    if !loaded || Decide(store.memory, r).Answer? then store else Commit(store, Decide(store.memory, r).rows, o)
  }

  lemma ScheduleInStep(s: State, r: Request, o: Outcome)
    ensures var s' := Next(s, Schedule(r, o));
            && s'.store == ScheduledStore(s.store, s.loaded, r, o) && s' == s.(store := s'.store, bound := s'.bound, log := s'.log)
            && s.log <= s'.log
  {
    hide Decide, Gone, Fits;
  }

  /** The tick is over when nothing is left to try or to wait for. */
  function Open(t: Tick): Option<Tick> {
    if t.todo == [] && t.awaiting.None? then None else Some(t)
  }

  function TickStartNext(s: State, now: Instant): State {
    if !s.running || s.tick.Some? then s
    else s.(tick := Open(Tick(now, DueIds(s.store.memory, now), None)))
  }

  /** The rows with the row of `id` replaced. */
  function With(rows: seq<Row>, id: Id, row: Row): seq<Row> {
    if RowOf(rows, id).Some? then rows[IndexOf(rows, id) := row] else rows
  }

  /** Write the claim of a due row; only a confirmed claim is delivered. */
  function ClaimWrite(s: State, rest: Tick, row: Row, o: Outcome): State
    requires row.Live?
  {
    var rows := With(s.store.memory, row.id, ClaimedRow(s.settings, row, rest.now));
    if !Fits(rows) then s.(tick := None)
    else if !o.Confirmed? then s.(store := Commit(s.store, rows, o), tick := Open(rest))
    else
      var binding := Binding(row.payload, row.due);
      s.(store := Commit(s.store, rows, o), tick := Open(rest.(awaiting := Some(row.id))),
         bound := s.bound[row.id := binding], log := s.log + [Sent(row.id, binding)])
  }

  function ClaimNext(s: State, o: Outcome): State {
    if s.tick.None? || s.tick.value.awaiting.Some? || s.tick.value.todo == [] then s
    else
      var t := s.tick.value;
      var rest := t.(todo := t.todo[1..]);
      var row := RowOf(s.store.memory, t.todo[0]);
      if row.None? || !DueBy(row.value, t.now) then s.(tick := Open(rest))
      else ClaimWrite(s, rest, row.value, o)
  }

  /** A sent message reaches the phone, however late; the phone shows an operation id once. */
  function ArriveNext(s: State, k: nat): State {
    if k >= |s.log| || !s.log[k].Sent? || s.log[k].id in s.phone then s
    else s.(phone := s.phone[s.log[k].id := s.log[k].binding.payload.text])
  }

  /** `_complete` for a receipt, `_defer` without one. */
  function Settled(row: Row, receipt: Option<Receipt>, now: Instant): Row
    requires row.Live?
  {
    if receipt.Some? then DeliveredRow(row, receipt.value, now) else DeferredRow(row, now)
  }

  function SettleWrite(s: State, rest: Tick, row: Row, answer: Option<Receipt>, now: Instant, o: Outcome): State
    requires row.Live?
  {
    var rows := With(s.store.memory, row.id, Settled(row, answer, now));
    var acked := if answer.Some? then s.acked + {(row.id, row.payload)} else s.acked;
    if !Fits(rows) then s.(tick := None, acked := acked)
    else s.(store := Commit(s.store, rows, o), tick := Open(rest), acked := acked)
  }

  /** The phone acknowledges only what it has shown. */
  function SettleNext(s: State, receipt: Option<Receipt>, now: Instant, o: Outcome): State {
    if s.tick.None? || s.tick.value.awaiting.None? then s
    else
      var id := s.tick.value.awaiting.value;
      var rest := s.tick.value.(awaiting := None);
      var row := RowOf(s.store.memory, id);
      if row.None? || !row.value.Live? || !row.value.inFlight then s.(tick := Open(rest))
      else SettleWrite(s, rest, row.value, if id in s.phone then receipt else None, now, o)
  }

  /** `start` reads the file; a file it does not accept leaves everything as it was. */
  function StartNext(s: State): State {
    if s.running || !Acceptable(s.store.disk) then s
    else s.(store := Store(s.store.disk, s.store.disk), loaded := true, running := true)
  }

  function Next(s: State, e: Event): State {
    match e
    case Schedule(r, o) => ScheduleNext(s, r, o)
    case TickStart(now) => TickStartNext(s, now)
    case Claim(o) => ClaimNext(s, o)
    case Arrive(k) => ArriveNext(s, k)
    case Settle(receipt, now, o) => SettleNext(s, receipt, now, o)
    case Stop => s.(running := false, tick := None)
    case Start => StartNext(s)
    case Crash => s.(store := s.store.(memory := []), loaded := false, running := false, tick := None)
  }

  function Run(s: State, events: seq<Event>): State
    decreases |events|
  {
    if events == [] then s else Next(Run(s, events[..|events| - 1]), events[|events| - 1])
  }

  /** The log is as it was, or has one delivery more; what was acknowledged stays so. */
  predicate OnlySends(s: State, s': State) {
    && s.acked <= s'.acked
    && (s'.log == s.log || (|s'.log| == |s.log| + 1 && s'.log == s.log + [s'.log[|s.log|]] && s'.log[|s.log|].Sent?))
  }

  lemma ClaimOnlySends(s: State, o: Outcome)
    ensures OnlySends(s, ClaimNext(s, o))
  {
    hide RowOf, With, Fits, Commit, ClaimedRow;
  }

  lemma SettleOnlySends(s: State, receipt: Option<Receipt>, now: Instant, o: Outcome)
    ensures OnlySends(s, SettleNext(s, receipt, now, o))
  {
    hide RowOf, With, Fits, Commit, Settled;
  }

  /** Everything but a schedule call adds at most a delivery to the log. */
  lemma OthersOnlySend(s: State, e: Event)
    requires !e.Schedule?
    ensures OnlySends(s, Next(s, e))
  {
    if e.Claim? { hide ClaimNext, OnlySends; ClaimOnlySends(s, e.outcome); }
    else if e.Settle? { hide SettleNext, OnlySends; SettleOnlySends(s, e.receipt, e.now, e.outcome); }
    else { hide RowOf, DueIds, Acceptable; }
  }

  lemma {:induction false} RunAppend(s: State, first: seq<Event>, second: seq<Event>)
    ensures Run(s, first + second) == Run(Run(s, first), second)
    decreases |second|
  {
    hide Next;
    if second == [] {
      assert first + second == first;
    } else {
      var n := |second| - 1;
      RunAppend(s, first, second[..n]);
      assert (first + second)[..|first + second| - 1] == first + second[..n];
    }
  }
}
