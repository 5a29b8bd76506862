/**
 The turn tables of adapter.py as a state machine over runs.

 Every coroutine is cut at its `await`s: `Resume` runs one suspended task from the await it
 stands at to its next one.  A turn object is a number, its place in the order of creation, so
 "is" on objects is equality of numbers and says nothing about the turn id, which the client
 chooses and may use again.
 */
module TurnProtocol {
  import opened Options

  type TurnId = string
  type Obj = nat
  type PhoneId = nat
  type Binding = nat

  /** One `_Turn` object with the phone connection and MCP request that own it. */
  datatype Turn = Turn(id: TurnId, generation: nat, phone: PhoneId, binding: Binding, finished: bool, text: string)

  /** `g2-turn-<generation>-<turn id>`; the generation is a number, so the text determines both. */
  datatype EventId = EventId(generation: nat, turnId: TurnId)

  datatype Route = Route(turnId: TurnId, generation: nat)

  /** The fields of the adapter, and every turn object ever made. */
  datatype Tables = Tables(
    objs: seq<Turn>,
    turns: map<TurnId, Obj>,
    routes: map<EventId, Route>,
    active: Option<TurnId>,
    nextGeneration: nat,
    phone: Option<PhoneId>,
    nextPhone: PhoneId)

  /** What `_start_turn` needs to go on after it has cancelled the turn before. */
  datatype Cont = End | StartTurn(id: TurnId, phone: PhoneId, binding: Binding)

  /** A coroutine suspended at an await. */
  datatype Task =
    | Done
    | Dropping
    | Cancelling(obj: Obj, sendDone: bool, cont: Cont)
    | FinishCockpit(obj: Obj, cont: Cont)
    | FinishReply(obj: Obj, cont: Cont)
    | OpenCockpit(obj: Obj)
    | Dispatching(obj: Obj)
    | AbortCancel(obj: Obj)
    | AbortDiscard(obj: Obj)

  /** What leaves the adapter for a turn: its dispatch to the gateway and the answer to its call. */
  datatype Effect = Dispatched(obj: Obj) | Replied(obj: Obj, text: string)

  datatype State = State(tables: Tables, tasks: seq<Task>, log: seq<Effect>)

  /** How an await ends: normally, with an exception, or because the task is cancelled. */
  datatype Result = Ok | Failed | Cancelled

  datatype Event =
    | Attach
    | Drop
    | VoiceTurn(id: TurnId, binding: Binding, routed: bool)
    | HostCancel(binding: Binding)
    | Complete(event: EventId, generation: nat)
    | Say(candidates: seq<EventId>, requested: Option<nat>, text: string)
    | Resume(k: nat, result: Result, routed: bool)

  function Initial(): State {
    State(Tables([], map[], map[], None, 1, None, 0), [], [])
  }

  // ---------------------------------------------------------------- the tables

  predicate Tabled(t: Tables, o: Obj) {
    o < |t.objs| && t.objs[o].id in t.turns && t.turns[t.objs[o].id] == o
  }

  /** `_owns_turn` for the phone and binding the turn was made with. */
  predicate Owns(t: Tables, o: Obj, requireActive: bool, requireUnfinished: bool) {
    && Tabled(t, o)
    && (requireActive ==> t.active == Some(t.objs[o].id))
    && t.phone == Some(t.objs[o].phone)
    && (requireUnfinished ==> !t.objs[o].finished)
  }

  function EventOf(turn: Turn): EventId {
    EventId(turn.generation, turn.id)
  }

  /** `_forget_turn` with `expected`. */
  function Forget(t: Tables, o: Obj): Tables {
    if !Tabled(t, o) then t
    else
      var turn := t.objs[o];
      t.(turns := t.turns - {turn.id}, routes := t.routes - {EventOf(turn)},
         active := if t.active == Some(turn.id) then None else t.active)
  }

  function MarkFinished(t: Tables, o: Obj): Tables
    requires o < |t.objs|
  {
    t.(objs := t.objs[o := t.objs[o].(finished := true)])
  }

  /** A new turn object takes its id, its route and the active place. */
  function Insert(t: Tables, id: TurnId, phone: PhoneId, binding: Binding): Tables {
    var turn := Turn(id, t.nextGeneration, phone, binding, false, "");
    t.(objs := t.objs + [turn], turns := t.turns[id := |t.objs|],
       routes := t.routes[EventOf(turn) := Route(id, turn.generation)],
       active := Some(id), nextGeneration := t.nextGeneration + 1)
  }

  // ---------------------------------------------------------------- the coroutines

  /** From one await to the next: the tables, where the task stands now, and what left. */
  datatype Segment = Segment(tables: Tables, task: Task, effects: seq<Effect>)

  function Stop(t: Tables): Segment {
    Segment(t, Done, [])
  }

  /** `_start_turn` after a possible cancellation; `routed` is false when building the source or
      its session key raises, after a generation was taken. */
  function Create(t: Tables, id: TurnId, phone: PhoneId, binding: Binding, routed: bool): Segment {
    if t.phone != Some(phone) then Stop(t)
    else if !routed then Stop(t.(nextGeneration := t.nextGeneration + 1))
    else Segment(Insert(t, id, phone, binding), OpenCockpit(|t.objs|), [])
  }

  function Continue(t: Tables, cont: Cont, routed: bool): Segment {
    match cont
    case End => Stop(t)
    case StartTurn(id, phone, binding) => Create(t, id, phone, binding, routed)
  }

  /** `_cancel_active_turn` up to its await. */
  function BeginCancel(t: Tables, sendDone: bool, cont: Cont, routed: bool): Segment {
    if t.active.None? then Continue(t, cont, routed)
    else if t.active.value !in t.turns then Continue(t.(active := None), cont, routed)
    else Segment(t, Cancelling(t.turns[t.active.value], sendDone, cont), [])
  }

  /** `_finish_turn` up to its first await. */
  function BeginFinish(t: Tables, o: Obj, cont: Cont, routed: bool): Segment {
    if !Tabled(t, o) || t.objs[o].finished then Continue(t, cont, routed)
    else
      var marked := MarkFinished(t, o);
      if Owns(marked, o, false, false) then Segment(marked, FinishCockpit(o, cont), [])
      else Continue(Forget(marked, o), cont, routed)
  }

  /** The exception handler of `_start_turn`. */
  function Abort(t: Tables, o: Obj): Segment {
    if Owns(t, o, true, false) then Segment(t, AbortCancel(o), []) else Stop(Forget(t, o))
  }

  /** Run a task from its await to the next one. */
  function Step(t: Tables, task: Task, r: Result, routed: bool): Segment {
    match task
    case Done => Stop(t)
    case Dropping => if r.Ok? then BeginCancel(t, false, End, routed) else Stop(t)
    case Cancelling(o, sendDone, cont) =>
      if !r.Ok? then Stop(t)
      else if sendDone then BeginFinish(t, o, cont, routed)
      else Continue(Forget(t, o), cont, routed)
    case FinishCockpit(o, cont) =>
      if r.Cancelled? then Stop(Forget(t, o))
      else if !Owns(t, o, false, false) then Continue(Forget(t, o), cont, routed)
      else Segment(t, FinishReply(o, cont), [Replied(o, t.objs[o].text)])
    case FinishReply(o, cont) =>
      if r.Ok? then Continue(Forget(t, o), cont, routed) else Stop(Forget(t, o))
    case OpenCockpit(o) =>
      if r.Ok? && Owns(t, o, true, true) then Segment(t, Dispatching(o), [Dispatched(o)]) else Abort(t, o)
    case Dispatching(o) =>
      if r.Ok? && Owns(t, o, true, true) then Stop(t) else Abort(t, o)
    case AbortCancel(o) =>
      if r.Cancelled? then Stop(t)
      else if Owns(t, o, true, false) then Segment(t, AbortDiscard(o), [])
      else Stop(Forget(t, o))
    case AbortDiscard(o) =>
      if r.Cancelled? then Stop(t) else Stop(Forget(t, o))
  }

  /** The turn object an event id leads to, finished or not (`on_processing_complete`). */
  function Routed(t: Tables, event: EventId): Option<Obj> {
    if event !in t.routes then None
    else
      var route := t.routes[event];
      if route.turnId in t.turns && t.turns[route.turnId] < |t.objs|
         && EventOf(t.objs[t.turns[route.turnId]]) == event && t.objs[t.turns[route.turnId]].generation == route.generation
      then Some(t.turns[route.turnId])
      else None
  }

  /** The unfinished turn of one candidate event, of the requested generation if there is one. */
  function Speaker(t: Tables, event: EventId, requested: Option<nat>): Option<Obj> {
    var o := Routed(t, event);
    if o.Some? && o.value < |t.objs| && !t.objs[o.value].finished
       && (requested.None? || requested.value == t.objs[o.value].generation)
    then o else None
  }

  /** `_resolve_turn`: the first candidate that leads to such a turn. */
  function Resolved(t: Tables, candidates: seq<EventId>, requested: Option<nat>): (o: Option<Obj>)
    ensures o.Some? ==> o.value < |t.objs| && !t.objs[o.value].finished
  {
    if candidates == [] then None
    else if Speaker(t, candidates[0], requested).Some? then Speaker(t, candidates[0], requested)
    else Resolved(t, candidates[1..], requested)
  }

  /** `send`: the latest text of an unfinished turn. */
  function Spoken(t: Tables, candidates: seq<EventId>, requested: Option<nat>, text: string): Tables {
    var o := Resolved(t, candidates, requested);
    if t.phone.None? || o.None? then t
    else t.(objs := t.objs[o.value := t.objs[o.value].(text := text)])
  }

  function Spawn(s: State, seg: Segment): State {
    State(seg.tables, s.tasks + [seg.task], s.log + seg.effects)
  }

  function Next(s: State, e: Event): State {
    var t := s.tables;
    match e
    case Attach => s.(tables := t.(phone := Some(t.nextPhone), nextPhone := t.nextPhone + 1))
    case Drop =>
      if t.phone.None? then s else Spawn(s, Segment(t.(phone := None), Dropping, []))
    case VoiceTurn(id, binding, routed) =>
      if t.phone.None? then s
      else if t.active.Some? then Spawn(s, BeginCancel(t, true, StartTurn(id, t.phone.value, binding), routed))
      else Spawn(s, Create(t, id, t.phone.value, binding, routed))
    case HostCancel(binding) =>
      if t.phone.None? || t.active.None? || t.active.value !in t.turns || t.turns[t.active.value] >= |t.objs|
         || t.objs[t.turns[t.active.value]].binding != binding then s
      else Spawn(s, BeginCancel(t, true, End, true))
    case Complete(event, generation) =>
      var o := Routed(t, event);
      if o.None? || generation != event.generation then s
      else Spawn(s, BeginFinish(t, o.value, End, true))
    case Say(candidates, requested, text) => s.(tables := Spoken(t, candidates, requested, text))
    case Resume(k, r, routed) =>
      if k >= |s.tasks| then s
      else
        var seg := Step(t, s.tasks[k], r, routed);
        State(seg.tables, s.tasks[k := seg.task], s.log + seg.effects)
  }

  function Run(s: State, events: seq<Event>): State
    decreases |events|
  {
    if events == [] then s else Next(Run(s, events[..|events| - 1]), events[|events| - 1])
  }

  lemma {:induction false} RunAppend(s: State, first: seq<Event>, second: seq<Event>)
    ensures Run(s, first + second) == Run(Run(s, first), second)
    decreases |second|
  {
    hide Next;
    if second == [] {
      assert first + second == first;
    } else {
      var n := |second| - 1;
      RunAppend(s, first, second[..n]);
      assert (first + second)[..|first + second| - 1] == first + second[..n];
    }
  }

  // ---------------------------------------------------------------- authority

  /** A `_ToolAuthorization` of a turn. */
  datatype Authority = Authority(turnId: TurnId, generation: nat, event: EventId)

  /** `authorization_is_current`. */
  predicate Valid(t: Tables, a: Authority) {
    && a.event in t.routes && t.routes[a.event] == Route(a.turnId, a.generation)
    && a.turnId in t.turns && t.turns[a.turnId] < |t.objs|
    && var turn := t.objs[t.turns[a.turnId]];
       && !turn.finished && t.active == Some(a.turnId) && EventOf(turn) == a.event && turn.generation == a.generation
  }

  /** `authorize_active_g2_turn`: what the event of a session is allowed now. */
  function Authorize(t: Tables, event: EventId): Option<Authority> {
    var o := Routed(t, event);
    if o.Some? && o.value < |t.objs| && !t.objs[o.value].finished && t.active == Some(t.objs[o.value].id)
    then Some(Authority(t.objs[o.value].id, t.objs[o.value].generation, event))
    else None
  }
}
