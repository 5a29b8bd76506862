/**
 The request lanes of host_mcp.py: one JSON-RPC connection with a voice lane, a latest-wins cue lane
 and a set of request ids that are never used again.

 `handle_message` calls are serial on a connection, so at most one of them stands at an await
 (`frame`); turn completions, cue results and the closing of the server interleave with it there.
 */
module HostLanes {

  type Id = string

  const MAX_REQUESTS_PER_SESSION: nat := 4096
  const MAX_SAFE_INTEGER: nat := 9_007_199_254_740_991

  datatype Lifecycle = Fresh | Initializing | Initialized

  /** The voice call that is pending: its call generation, and whether its cancellation was asked for. */
  datatype Voice = Voice(generation: nat, cancelling: bool)

  /** Where the handler stands: it is sending the answer of an admitted request, the answer to a
      duplicate or the last answer of an exhausted connection, or it awaits a callback. */
  datatype Frame =
    | Idle
    | Replying(id: Id)
    | Duplicate(id: Id)
    | Exhausted(id: Id)
    | StartingVoice(id: Id, generation: nat)
    | Superseding(id: Id)
    | CancellingCue
    | CancellingVoice(id: Id, generation: nat)

  datatype Source = Immediate | VoiceLane(generation: nat) | CueLane(cue: nat)

  /** What was sent: the answer of an admitted request, the fixed -32600 error of a malformed or
      repeated one, or the -32005 that ends a connection with no ids left. */
  datatype Reply = Terminal(id: Id, source: Source) | FixedError(id: Id) | ExhaustedError(id: Id)

  /** A cue job is a number, its place in the order in which they were started. */
  datatype State = State(
    lifecycle: Lifecycle,
    closed: bool,
    nextGeneration: nat,
    nextCue: nat,
    voices: map<Id, Voice>,
    cues: map<Id, nat>,
    completed: set<Id>,
    frame: Frame,
    replies: seq<Reply>,
    started: seq<nat>,
    cancels: seq<nat>)

  /** What a message asks for once its shape has been checked; `valid` is the check of its parameters.
      `Simple` stands for every method that is answered at once. */
  datatype Message =
    | Malformed(id: Id)
    | InitializedNote
    | CancelNote(target: Id)
    | Initialize(id: Id, valid: bool)
    | Simple(id: Id)
    | CueCall(id: Id, valid: bool)
    | VoiceCall(id: Id, valid: bool)

  datatype Result = Ok | Failed | Cancelled

  datatype Event =
    | Receive(message: Message)
    | Resume(result: Result)
    | CueDone(cue: nat)
    | CompleteTurn(id: Id, generation: nat)
    | Close

  function Initial(): State {
    State(Fresh, false, 1, 0, map[], map[], {}, Idle, [], [], [])
  }

  predicate Used(s: State, id: Id) {
    id in s.voices || id in s.cues || id in s.completed
  }

  // ---------------------------------------------------------------- the lanes

  function Answer(s: State, id: Id, source: Source): State {
    s.(completed := s.completed + {id}, replies := s.replies + [Terminal(id, source)])
  }

  /** `complete_turn`: only the pending call with this very binding is answered. */
  function FinishVoice(s: State, id: Id, generation: nat): State {
    if s.closed || id !in s.voices || s.voices[id].generation != generation then s
    else Answer(s.(voices := s.voices - {id}), id, VoiceLane(generation))
  }

  /** `_take_pending_conversate_cues` and the answer that follows it. */
  function FinishCue(s: State, id: Id, cue: nat): State {
    if s.closed || id !in s.cues || s.cues[id] != cue then s
    else Answer(s.(cues := s.cues - {id}), id, CueLane(cue))
  }

  function BeginCue(s: State, id: Id): State {
    s.(cues := s.cues[id := s.nextCue], nextCue := s.nextCue + 1, frame := Idle)
  }

  function CloseAll(s: State): State {
    s.(closed := true, voices := map[], cues := map[], completed := {})
  }

  // ---------------------------------------------------------------- the handler

  /** The request of a pending cue job; there is at most one. */
  ghost function SomeCue(s: State): (id: Id)
    requires s.cues.Keys != {}
    ensures id in s.cues
  {
    var id :| id in s.cues.Keys; id
  }

  /** A request that has been admitted. */
  ghost function Admit(s: State, m: Message): State
    requires !m.InitializedNote? && !m.CancelNote?
  {
    match m
    case Initialize(id, valid) =>
      s.(frame := Replying(id), lifecycle := if s.lifecycle.Fresh? && valid then Initializing else s.lifecycle)
    case CueCall(id, valid) =>
      if !s.lifecycle.Initialized? || !valid then s.(frame := Replying(id))
      else if s.cues.Keys != {} then
        FinishCue(s, SomeCue(s), s.cues[SomeCue(s)]).(frame := Superseding(id))
      else BeginCue(s, id)
    case VoiceCall(id, valid) =>
      if !s.lifecycle.Initialized? || !valid || s.voices.Keys != {} || s.nextGeneration > MAX_SAFE_INTEGER then s.(frame := Replying(id))
      else
        s.(voices := s.voices[id := Voice(s.nextGeneration, false)], nextGeneration := s.nextGeneration + 1,
           started := s.started + [s.nextGeneration], frame := StartingVoice(id, s.nextGeneration))
    case Malformed(id) => s.(frame := Duplicate(id))
    case Simple(id) => s.(frame := Replying(id))
  }

  function IdOf(m: Message): Id
    requires !m.InitializedNote? && !m.CancelNote?
  {
    match m
    case Malformed(id) => id
    case Initialize(id, _) => id
    case Simple(id) => id
    case CueCall(id, _) => id
    case VoiceCall(id, _) => id
  }

  /** `_handle_cancel_notification` up to its first await. */
  function CancelNext(s: State, target: Id): State {
    if !s.lifecycle.Initialized? then s
    else if target in s.voices then
      if s.voices[target].cancelling then s
      else
        var generation := s.voices[target].generation;
        s.(voices := s.voices[target := Voice(generation, true)], cancels := s.cancels + [generation],
           frame := CancellingVoice(target, generation))
    else if target in s.cues then FinishCue(s, target, s.cues[target]).(frame := CancellingCue)
    else s
  }

  /** `handle_message` up to its first await. */
  ghost function ReceiveNext(s: State, m: Message): State {
    if s.closed || !s.frame.Idle? then s
    else if m.InitializedNote? then s.(lifecycle := if s.lifecycle.Initializing? then Initialized else s.lifecycle)
    else if m.CancelNote? then CancelNext(s, m.target)
    else if m.Malformed? || Used(s, IdOf(m)) then s.(frame := Duplicate(IdOf(m)))
    else if |s.completed| >= MAX_REQUESTS_PER_SESSION then s.(frame := Exhausted(IdOf(m)))
    else Admit(s, m)
  }

  /** The handler goes on after its await; `Failed` is an exception of the callback or the send. */
  function ResumeNext(s: State, r: Result): State {
    var idle := s.(frame := Idle);
    match s.frame
    case Idle => s
    case Replying(id) => if r.Ok? then Answer(idle, id, Immediate) else idle
    case Duplicate(id) => if r.Ok? then idle.(replies := s.replies + [FixedError(id)]) else idle
    case Exhausted(id) => if r.Ok? then CloseAll(idle.(replies := s.replies + [ExhaustedError(id)])) else idle
    case StartingVoice(id, generation) => if r.Failed? then FinishVoiceFailed(idle, id, generation) else idle
    case Superseding(id) =>
      if !r.Ok? then idle else if s.closed then s.(frame := Replying(id)) else BeginCue(s, id)
    case CancellingCue => idle
    case CancellingVoice(id, generation) => if r.Failed? then FinishVoice(idle, id, generation) else idle
  }

  /** A voice turn that could not be started; unlike `complete_turn` this does not look at `closed`, but
      closing has emptied the lane. */
  function FinishVoiceFailed(s: State, id: Id, generation: nat): State {
    if id !in s.voices || s.voices[id].generation != generation then s
    else Answer(s.(voices := s.voices - {id}), id, VoiceLane(generation))
  }

  ghost function CueDoneNext(s: State, cue: nat): State {
    if exists id :: id in s.cues && s.cues[id] == cue then
      var id :| id in s.cues && s.cues[id] == cue;
      FinishCue(s, id, cue)
    else s
  }

  ghost function Next(s: State, e: Event): State {
    match e
    case Receive(m) => ReceiveNext(s, m)
    case Resume(r) => ResumeNext(s, r)
    case CueDone(cue) => CueDoneNext(s, cue)
    case CompleteTurn(id, generation) => FinishVoice(s, id, generation)
    case Close => CloseAll(s)
  }

  ghost function Run(s: State, events: seq<Event>): State
    decreases |events|
  {
    if events == [] then s else Next(Run(s, events[..|events| - 1]), events[|events| - 1])
  }

  // ---------------------------------------------------------------- the invariant

  /** The admitted request the handler itself still has to answer. */
  function InHand(s: State): set<Id> {
    if s.frame.Replying? || s.frame.Superseding? then {s.frame.id} else {}
  }

  ghost predicate Answered(s: State, id: Id) {
    exists i :: 0 <= i < |s.replies| && s.replies[i].Terminal? && s.replies[i].id == id
  }

  predicate LanesOk(s: State) {
    && s.voices.Keys !! s.cues.Keys && s.voices.Keys !! s.completed && s.cues.Keys !! s.completed
    && InHand(s) !! s.voices.Keys && InHand(s) !! s.cues.Keys && InHand(s) !! s.completed
    && |s.voices| <= 1 && |s.cues| <= 1
    && |s.completed| + |s.voices| + |s.cues| + |InHand(s)| <= 4098
    && (s.frame.Superseding? ==> s.cues.Keys == {})
    && (s.closed ==> s.voices.Keys == {} && s.cues.Keys == {})
  }

  /** An answered request is completed, or the connection is closed and will not answer again. */
  ghost predicate AnswersOk(s: State) {
    && (forall id :: Answered(s, id) ==> id !in s.voices && id !in s.cues && id !in InHand(s) && (id in s.completed || s.closed))
    && (forall i, j :: 0 <= i < j < |s.replies| && s.replies[i].Terminal? && s.replies[j].Terminal? ==>
          s.replies[i].id != s.replies[j].id)
  }

  predicate GenerationsOk(s: State) {
    && (forall i :: 0 <= i < |s.started| ==> s.started[i] < s.nextGeneration)
    && (forall i, j :: 0 <= i < j < |s.started| ==> s.started[i] < s.started[j])
    && (forall id :: id in s.voices ==> s.voices[id].generation < s.nextGeneration)
    && (forall id :: id in s.cues ==> s.cues[id] < s.nextCue)
  }
}
