/**
 The Cockpit sessions of host_mcp.py: the questions and permissions a turn shows on the phone and the
 commands that answer them.

 A command is two events, because its dispatcher is awaited: `Command` validates it and calls the
 dispatcher, `Receipt` is what comes back.  Commands are serial on a connection; everything else may
 happen in between.
 */
module HostCockpit {
  import opened Options

  type Key = string
  type CommandId = string

  const MAX_COCKPIT_SESSIONS := 8
  const MAX_COCKPIT_PENDING := 8
  const MAX_COMMANDS := 4096
  const MAX_SAFE_INTEGER: nat := 9_007_199_254_740_991
  const INTERACTION_TTL_MS := 5 * 60 * 1000
  const REVIEW_TEXT_MAX_SCALARS := 64

  datatype Kind = Question | TextQuestion | Permission

  /** The ids are digests of these parts, taken as injective. */
  datatype SessionId = SessionId(key: Key, callGeneration: nat)
  datatype RequestId = RequestId(session: SessionId, kind: Kind, reference: string)

  /** One pending interaction; `choices` are the choice ids or decisions it offers. */
  datatype Item = Item(request: RequestId, nonce: nat, kind: Kind, expires: int, choices: seq<string>)

  datatype Backend = Backend(kind: Kind, reference: string)

  datatype RunState = Running | WaitingHuman | Interrupting | Completed | Errored | Interrupted

  /** A session record; `obj` is its place in the order of creation. */
  datatype Record = Record(obj: nat, session: SessionId, generation: nat, state: RunState,
                           pending: seq<Item>, backends: map<RequestId, Backend>)

  datatype Command =
    | Answer(id: CommandId, session: SessionId, generation: nat, request: RequestId, nonce: nat, choice: string)
    | AnswerText(id: CommandId, session: SessionId, generation: nat, request: RequestId, nonce: nat, text: string)
    | Decide(id: CommandId, session: SessionId, generation: nat, request: RequestId, nonce: nat, choice: string)
    | Steer(id: CommandId, session: SessionId, generation: nat)
    | Interrupt(id: CommandId, session: SessionId, generation: nat)

  predicate Answering(c: Command) { c.Answer? || c.AnswerText? || c.Decide? }

  datatype Refusal =
    | StaleSession | SessionTerminal | SessionNotRunning | SessionNotInterruptible | StaleRequest | StaleNonce
    | RequestExpired | InvalidChoice | InvalidTextAnswer | InvalidDecision

  datatype Outcome = Accepted | Rejected | Duplicated | OutcomeUnknown

  /** A call of the dispatcher: the command, the record it was validated against and its backend. */
  datatype Call = Call(command: Command, obj: nat, backend: Option<Backend>)

  /** `records` is the session dictionary in insertion order; `calls` and `accepted` record what the
      dispatcher was given and which interactions it accepted an answer for. */
  datatype State = State(
    records: seq<Record>,
    bindings: map<Key, SessionId>,
    commands: set<CommandId>,
    inFlight: Option<Call>,
    nextObj: nat,
    nextNonce: nat,
    closed: bool,
    calls: seq<Call>,
    accepted: seq<(RequestId, nat)>)

  datatype StopReason = EndTurn | CancelledTurn | ErrorTurn

  datatype Event =
    | OpenTurn(session: SessionId, generation: nat, voicePending: bool)
    | Ask(session: SessionId, kind: Kind, reference: string, reviewable: bool, choices: seq<string>, now: int)
    | Discard(session: SessionId)
    | Finish(session: SessionId, stop: StopReason)
    | Snapshot(now: int)
    | Command(command: Command, now: int)
    | Receipt(outcome: Outcome)
    | Close

  function Initial(): State {
    State([], map[], {}, None, 0, 0, false, [], [])
  }

  // ---------------------------------------------------------------- records

  predicate IsTerminal(state: RunState) { state.Completed? || state.Errored? || state.Interrupted? }

  /** The place of the first record that is wanted, or the number of records. */
  function First(records: seq<Record>, wanted: Record -> bool): (i: nat)
    ensures i <= |records|
    ensures i < |records| ==> wanted(records[i])
    ensures forall j :: 0 <= j < i ==> !wanted(records[j])
  {
    if records == [] || wanted(records[0]) then 0 else 1 + First(records[1..], wanted)
  }

  function IndexOf(records: seq<Record>, session: SessionId): (i: nat)
    ensures i <= |records|
    ensures i < |records| ==> records[i].session == session
    ensures forall j :: 0 <= j < i ==> records[j].session != session
  {
    First(records, (r: Record) => r.session == session)
  }

  function IndexOfObj(records: seq<Record>, obj: nat): (i: nat)
    ensures i <= |records|
    ensures i < |records| ==> records[i].obj == obj
    ensures forall j :: 0 <= j < i ==> records[j].obj != obj
  {
    First(records, (r: Record) => r.obj == obj)
  }

  function FirstTerminal(records: seq<Record>): (i: nat)
    ensures i <= |records|
    ensures i < |records| ==> IsTerminal(records[i].state)
    ensures forall j :: 0 <= j < i ==> !IsTerminal(records[j].state)
  {
    First(records, (r: Record) => IsTerminal(r.state))
  }

  function Without(records: seq<Record>, i: nat): seq<Record>
    requires i < |records|
  {
    records[..i] + records[i + 1..]
  }

  function RequestsOf(pending: seq<Item>): set<RequestId> {
    set i | 0 <= i < |pending| :: pending[i].request
  }

  /** The pending items that are kept by a filter. */
  function Unexpired(pending: seq<Item>, now: int): seq<Item> {
    if pending == [] then []
    else Unexpired(pending[..|pending| - 1], now) + if pending[|pending| - 1].expires > now then [pending[|pending| - 1]] else []
  }

  function Unanswered(pending: seq<Item>, request: RequestId): seq<Item> {
    if pending == [] then []
    else Unanswered(pending[..|pending| - 1], request)
         + if pending[|pending| - 1].request != request then [pending[|pending| - 1]] else []
  }

  function Find(pending: seq<Item>, request: RequestId): (r: Option<Item>)
    ensures r.Some? ==> r.value in pending && r.value.request == request
    ensures r.None? ==> forall i :: 0 <= i < |pending| ==> pending[i].request != request
  {
    if pending == [] then None
    else if pending[0].request == request then Some(pending[0]) else Find(pending[1..], request)
  }

  // ---------------------------------------------------------------- opening and closing

  /** Room for one more session: the oldest terminal ones go; nothing goes when that is not enough. */
  function MakeRoom(records: seq<Record>, bindings: map<Key, SessionId>): (seq<Record>, map<Key, SessionId>)
    decreases |records|
  {
    if |records| < MAX_COCKPIT_SESSIONS || FirstTerminal(records) == |records| then (records, bindings)
    else
      var i := FirstTerminal(records);
      MakeRoom(Without(records, i), bindings - {records[i].session.key})
  }

  /** `open_cockpit_turn`. */
  function OpenNext(s: State, session: SessionId, generation: nat, voicePending: bool): State {
    if s.closed || !voicePending || !(1 <= generation <= MAX_SAFE_INTEGER) then s
    else
      var (records, bindings) := MakeRoom(s.records, s.bindings);
      if |records| >= MAX_COCKPIT_SESSIONS then s.(records := records, bindings := bindings)
      else
        var record := Record(s.nextObj, session, generation, Running, [], map[]);
        var i := IndexOf(records, session);
        s.(records := if i < |records| then records[i := record] else records + [record],
           bindings := bindings[session.key := session], nextObj := s.nextObj + 1)
  }

  /** `_record_for_binding`. */
  function RecordFor(s: State, session: SessionId): Option<nat> {
    if session.key in s.bindings && s.bindings[session.key] == session && IndexOf(s.records, session) < |s.records|
    then Some(IndexOf(s.records, session)) else None
  }

  /** `open_cockpit_question`, `open_cockpit_text_question` and `open_cockpit_permission`. */
  function AskNext(s: State, session: SessionId, kind: Kind, reference: string, reviewable: bool, choices: seq<string>, now: int): State {
    var i := RecordFor(s, session);
    if i.None? || i.value >= |s.records| then s
    else
      var r := s.records[i.value];
      var request := RequestId(session, kind, reference);
      if (kind.Question? && (choices == [] || |choices| > 8)) || |r.pending| >= MAX_COCKPIT_PENDING then s
      else if request in r.backends then s
      else if !reviewable then s
      else
        var item := Item(request, s.nextNonce, kind, now + INTERACTION_TTL_MS, choices);
        s.(records := s.records[i.value := r.(pending := r.pending + [item], state := WaitingHuman,
                                              backends := r.backends[request := Backend(kind, reference)])],
           nextNonce := s.nextNonce + 1)
  }

  /** `discard_cockpit_turn`. */
  function DiscardNext(s: State, session: SessionId): State {
    var i := RecordFor(s, session);
    if i.None? || i.value >= |s.records| then s
    else s.(records := Without(s.records, i.value), bindings := s.bindings - {session.key})
  }

  function StateAfter(stop: StopReason): RunState {
    match stop
    case EndTurn => Completed
    case CancelledTurn => Interrupted
    case ErrorTurn => Errored
  }

  /** `finish_cockpit_turn`. */
  function FinishNext(s: State, session: SessionId, stop: StopReason): State {
    var i := RecordFor(s, session);
    if i.None? || i.value >= |s.records| then s
    else s.(records := s.records[i.value := s.records[i.value].(pending := [], backends := map[], state := StateAfter(stop))])
  }

  /** What reading a snapshot does to a record: expired interactions go with their backends. */
  function Expired(r: Record, now: int): Record {
    var kept := Unexpired(r.pending, now);
    if |kept| == |r.pending| then r
    else
      r.(pending := kept, backends := r.backends - (RequestsOf(r.pending) - RequestsOf(kept)),
         state := if kept == [] && r.state.WaitingHuman? then Running else r.state)
  }

  function SnapshotNext(s: State, now: int): State {
    s.(records := seq(|s.records|, i requires 0 <= i < |s.records| => Expired(s.records[i], now)))
  }

  // ---------------------------------------------------------------- commands

  function KindFor(c: Command): Kind
    requires Answering(c)
  {
    if c.Answer? then Question else if c.AnswerText? then TextQuestion else Permission
  }

  /** `_cockpit_review_text`: text that is shown exactly as it is and dispatched unchanged. */
  predicate Reviewable(text: string) {
    && 0 < |text| <= REVIEW_TEXT_MAX_SCALARS && text[0] != ' ' && text[|text| - 1] != ' '
    && forall i :: 0 <= i < |text| ==> ' ' <= text[i] <= '~' && text[i] !in ['<', '>', '`']
  }

  /** `_validate_cockpit_authority`. */
  function Validate(r: Option<Record>, c: Command, now: int): Option<Refusal> {
    if r.None? || r.value.generation != c.generation then Some(StaleSession)
    else if IsTerminal(r.value.state) then Some(SessionTerminal)
    else if c.Steer? then if r.value.state.Running? then None else Some(SessionNotRunning)
    else if c.Interrupt? then
      if r.value.state.Running? || r.value.state.WaitingHuman? then None else Some(SessionNotInterruptible)
    else
      var item := Find(r.value.pending, c.request);
      if item.None? || item.value.kind != KindFor(c) then Some(StaleRequest)
      else if item.value.nonce != c.nonce then Some(StaleNonce)
      else if now >= item.value.expires then Some(RequestExpired)
      else if c.Answer? && c.choice !in item.value.choices then Some(InvalidChoice)
      else if c.AnswerText? && !Reviewable(c.text) then Some(InvalidTextAnswer)
      else if c.Decide? && c.choice !in item.value.choices then Some(InvalidDecision)
      else None
  }

  function RecordOf(records: seq<Record>, session: SessionId): Option<Record> {
    var i := IndexOf(records, session);
    if i < |records| then Some(records[i]) else None
  }

  /** `_handle_cockpit_command` up to the dispatcher. */
  function CommandNext(s: State, c: Command, now: int): State {
    if s.closed || s.inFlight.Some? || c.id in s.commands || |s.commands| >= MAX_COMMANDS then s
    else
      var t := s.(commands := s.commands + {c.id});
      var r := RecordOf(s.records, c.session);
      if Validate(r, c, now).Some? || r.None? then t
      else
        var backend := if Answering(c) && c.request in r.value.backends then Some(r.value.backends[c.request]) else None;
        var call := Call(c, r.value.obj, backend);
        t.(inFlight := Some(call), calls := s.calls + [call])
  }

  function Answered(r: Record, c: Command): Record {
    if Answering(c) then
      var kept := Unanswered(r.pending, c.request);
      r.(pending := kept, backends := r.backends - {c.request}, state := if kept != [] then WaitingHuman else Running)
    else if c.Interrupt? then r.(state := Interrupting)
    else r
  }

  /** The rest of `_handle_cockpit_command`; it works on the record object it validated, which may have
      left the dictionary meanwhile. */
  function ReceiptNext(s: State, outcome: Outcome): State {
    if s.inFlight.None? then s
    else
      var call := s.inFlight.value;
      var c := call.command;
      var idle := s.(inFlight := None);
      if !outcome.Accepted? then idle
      else
        var i := IndexOfObj(s.records, call.obj);
        idle.(records := if i < |s.records| then s.records[i := Answered(s.records[i], c)] else s.records,
              accepted := if Answering(c) then s.accepted + [(c.request, c.nonce)] else s.accepted)
  }

  function Next(s: State, e: Event): State {
    match e
    case OpenTurn(session, generation, voicePending) => OpenNext(s, session, generation, voicePending)
    case Ask(session, kind, reference, reviewable, choices, now) => AskNext(s, session, kind, reference, reviewable, choices, now)
    case Discard(session) => DiscardNext(s, session)
    case Finish(session, stop) => FinishNext(s, session, stop)
    case Snapshot(now) => SnapshotNext(s, now)
    case Command(c, now) => CommandNext(s, c, now)
    case Receipt(outcome) => ReceiptNext(s, outcome)
    case Close => s.(records := [], bindings := map[], commands := {}, closed := true)
  }

  function Run(s: State, events: seq<Event>): State
    decreases |events|
  {
    if events == [] then s else Next(Run(s, events[..|events| - 1]), events[|events| - 1])
  }
}
