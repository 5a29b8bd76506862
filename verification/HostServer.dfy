/**
 The server object of host_mcp.py: its request lanes and its Cockpit records, updated in place and in
 step with the machines of `HostLanes` and `HostCockpit`.
 */
module HostServer {
  import opened Options
  import Lanes = HostLanes
  import LanesSafety = HostLanesSafety
  import CockpitSafety = HostCockpitSafety
  import opened HostCockpit

  /** The lanes part of a connection-scoped server. */
  class RequestLanes {
    var lifecycle: Lanes.Lifecycle
    var closed: bool
    var nextGeneration: nat
    var nextCue: nat
    var voices: map<Lanes.Id, Lanes.Voice>
    var cues: map<Lanes.Id, nat>
    var completed: set<Lanes.Id>

    constructor ()
      ensures InStep(Lanes.Initial())
    {
      lifecycle, closed := Lanes.Fresh, false;
      nextGeneration, nextCue := 1, 0;
      voices, cues, completed := map[], map[], {};
    }

    predicate InStep(s: Lanes.State)
      reads this
    {
      && lifecycle == s.lifecycle && closed == s.closed && nextGeneration == s.nextGeneration && nextCue == s.nextCue
      && voices == s.voices && cues == s.cues && completed == s.completed
    }

    /** `complete_turn` up to the send of its answer. */
    method CompleteTurn(ghost s: Lanes.State, id: Lanes.Id, generation: nat) returns (sent: seq<Lanes.Reply>)
      requires InStep(s)
      modifies this`voices, this`completed
      ensures InStep(Lanes.FinishVoice(s, id, generation))
      ensures Lanes.FinishVoice(s, id, generation).replies == s.replies + sent
    {
      sent := [];
      if closed || id !in voices || voices[id].generation != generation { return; }
      voices := voices - {id};
      completed := completed + {id};
      sent := [Lanes.Terminal(id, Lanes.VoiceLane(generation))];
    }

    /** `_take_pending_conversate_cues` and the answer after it: only the pending job itself is taken. */
    method TakeCue(ghost s: Lanes.State, id: Lanes.Id, cue: nat) returns (sent: seq<Lanes.Reply>)
      requires InStep(s)
      modifies this`cues, this`completed
      ensures InStep(Lanes.FinishCue(s, id, cue))
      ensures Lanes.FinishCue(s, id, cue).replies == s.replies + sent
    {
      sent := [];
      if closed || id !in cues || cues[id] != cue { return; }
      cues := cues - {id};
      completed := completed + {id};
      sent := [Lanes.Terminal(id, Lanes.CueLane(cue))];
    }

    method Close(ghost s: Lanes.State)
      requires InStep(s)
      modifies this`closed, this`voices, this`cues, this`completed
      ensures InStep(Lanes.CloseAll(s))
    {
      closed := true;
      voices, cues, completed := map[], map[], {};
    }

    /** `_handle_cancel_notification` up to its first await; `cancel` is the call to cancel, if any. */
    method CancelNotification(ghost s: Lanes.State, target: Lanes.Id) returns (frame: Lanes.Frame, sent: seq<Lanes.Reply>, cancel: Option<nat>)
      requires InStep(s) && s.frame.Idle?
      modifies this`voices, this`cues, this`completed
      ensures var s' := Lanes.CancelNext(s, target);
              InStep(s') && frame == s'.frame && s'.replies == s.replies + sent
              && s'.cancels == s.cancels + (if cancel.Some? then [cancel.value] else [])
    {
      frame, sent, cancel := Lanes.Idle, [], None;
      if !lifecycle.Initialized? { return; }
      if target in voices {
        var voice := voices[target];
        if voice.cancelling { return; }
        voices := voices[target := Lanes.Voice(voice.generation, true)];
        frame, cancel := Lanes.CancellingVoice(target, voice.generation), Some(voice.generation);
      } else if target in cues {
        sent := TakeCue(s, target, cues[target]);
        frame := Lanes.CancellingCue;
      }
    }

    /** A voice call after validation: it is refused at once or opens the voice lane. */
    method VoiceCall(ghost s: Lanes.State, id: Lanes.Id, valid: bool) returns (frame: Lanes.Frame, generation: Option<nat>)
      requires InStep(s) && s.frame.Idle?
      modifies this`voices, this`nextGeneration
      ensures var s' := Lanes.Admit(s, Lanes.Message.VoiceCall(id, valid));
              InStep(s') && frame == s'.frame
              && s'.started == s.started + (if generation.Some? then [generation.value] else [])
    {
      if !lifecycle.Initialized? || !valid || voices.Keys != {} || nextGeneration > Lanes.MAX_SAFE_INTEGER {
        return Lanes.Replying(id), None;
      }
      generation := Some(nextGeneration);
      voices := voices[id := Lanes.Voice(nextGeneration, false)];
      nextGeneration := nextGeneration + 1;
      frame := Lanes.StartingVoice(id, generation.value);
    }

    /** A cue call after validation: a pending job is superseded first, then the new one begins. */
    method CueCall(ghost s: Lanes.State, id: Lanes.Id, valid: bool) returns (frame: Lanes.Frame, sent: seq<Lanes.Reply>)
      requires InStep(s) && s.frame.Idle? && !s.closed && |s.cues| <= 1
      modifies this`cues, this`nextCue, this`completed
      ensures var s' := Lanes.Admit(s, Lanes.Message.CueCall(id, valid));
              InStep(s') && frame == s'.frame && s'.replies == s.replies + sent
    {
      sent := [];
      if !lifecycle.Initialized? || !valid { return Lanes.Replying(id), []; }
      if cues.Keys != {} {
        var pending: Lanes.Id :| pending in cues.Keys;
        LanesSafety.OneKey(cues, pending, Lanes.SomeCue(s));
        sent := TakeCue(s, pending, cues[pending]);
        frame := Lanes.Superseding(id);
      } else {
        cues := cues[id := nextCue];
        nextCue := nextCue + 1;
        frame := Lanes.Idle;
      }
    }

    /** A request that is neither malformed, repeated nor one too many. */
    method Admit(ghost s: Lanes.State, m: Lanes.Message) returns (frame: Lanes.Frame, sent: seq<Lanes.Reply>)
      requires InStep(s) && s.frame.Idle? && !s.closed && |s.cues| <= 1
      requires !m.Malformed? && !m.InitializedNote? && !m.CancelNote?
      modifies this
      ensures Did(s, Lanes.Admit(s, m), frame, sent)
    {
      sent := [];
      match m
      case Initialize(id, valid) =>
        frame := Lanes.Replying(id);
        lifecycle := if lifecycle.Fresh? && valid then Lanes.Initializing else lifecycle;
      case Simple(id) => frame := Lanes.Replying(id);
      case CueCall(id, valid) => frame, sent := CueCall(s, id, valid);
      case VoiceCall(id, valid) => { var generation; frame, generation := VoiceCall(s, id, valid); }
    }

    /** The fields, the frame and what was sent are those of the machine. */
    ghost predicate Did(s: Lanes.State, s': Lanes.State, frame: Lanes.Frame, sent: seq<Lanes.Reply>)
      reads this
    {
      InStep(s') && frame == s'.frame && s'.replies == s.replies + sent
    }

    /** `handle_message` up to its first await. */
    method Handle(ghost s: Lanes.State, at: Lanes.Frame, m: Lanes.Message) returns (frame: Lanes.Frame, sent: seq<Lanes.Reply>)
      requires InStep(s) && s.frame == at && |s.cues| <= 1
      modifies this
      ensures Did(s, Lanes.ReceiveNext(s, m), frame, sent)
    {
      frame, sent := at, [];
      if closed || !at.Idle? { return; }
      hide Lanes.Admit, Lanes.CancelNext;
      if m.InitializedNote? {
        lifecycle := if lifecycle.Initializing? then Lanes.Initialized else lifecycle;
      } else if m.CancelNote? {
        var cancel;
        frame, sent, cancel := CancelNotification(s, m.target);
      } else {
        var id := Lanes.IdOf(m);
        if m.Malformed? || id in voices || id in cues || id in completed { frame := Lanes.Duplicate(id); }
        else if |completed| >= Lanes.MAX_REQUESTS_PER_SESSION { frame := Lanes.Exhausted(id); }
        else { frame, sent := Admit(s, m); }
      }
    }

    /** The handler goes on after its await; an immediate answer is remembered once it was sent. */
    method Resume(ghost s: Lanes.State, at: Lanes.Frame, r: Lanes.Result) returns (frame: Lanes.Frame, sent: seq<Lanes.Reply>)
      requires InStep(s) && s.frame == at && (s.closed ==> s.voices.Keys == {})
      modifies this
      ensures Did(s, Lanes.ResumeNext(s, r), frame, sent)
    {
      frame, sent := Lanes.Idle, [];
      ghost var idle := s.(frame := Lanes.Idle);
      match at
      case Idle =>
      case Replying(id) =>
        if r.Ok? { completed, sent := completed + {id}, [Lanes.Terminal(id, Lanes.Immediate)]; }
      case Duplicate(id) => sent := if r.Ok? then [Lanes.FixedError(id)] else [];
      case Exhausted(id) =>
        if r.Ok? {
          sent := [Lanes.ExhaustedError(id)];
          Close(idle);
        }
      case StartingVoice(id, generation) => if r.Failed? { sent := CompleteTurn(idle, id, generation); }
      case Superseding(id) =>
        if r.Ok? && closed { frame := Lanes.Replying(id); }
        else if r.Ok? { cues, nextCue := cues[id := nextCue], nextCue + 1; }
      case CancellingCue =>
      case CancellingVoice(id, generation) => if r.Failed? { sent := CompleteTurn(idle, id, generation); }
    }

    /** A cue job is done: only the pending one is answered. */
    method CueDone(ghost s: Lanes.State, cue: nat) returns (sent: seq<Lanes.Reply>)
      requires InStep(s) && |s.cues| <= 1
      modifies this`cues, this`completed
      ensures Did(s, Lanes.CueDoneNext(s, cue), s.frame, sent)
    {
      sent := [];
      if exists id :: id in cues && cues[id] == cue {
        var id :| id in cues && cues[id] == cue;
        assert forall x :: x in s.cues ==> x == id by {
          forall x | x in s.cues ensures x == id { LanesSafety.OneKey(s.cues, x, id); }
        }
        sent := TakeCue(s, id, cue);
      }
    }

    /** One event of the connection. */
    method Happen(ghost s: Lanes.State, at: Lanes.Frame, e: Lanes.Event) returns (frame: Lanes.Frame, sent: seq<Lanes.Reply>)
      requires InStep(s) && s.frame == at && |s.cues| <= 1 && (s.closed ==> s.voices.Keys == {})
      modifies this
      ensures Did(s, Lanes.Next(s, e), frame, sent)
    {
      frame, sent := at, [];
      hide Lanes.ReceiveNext, Lanes.ResumeNext, Lanes.CueDoneNext;
      match e
      case Receive(m) => frame, sent := Handle(s, at, m);
      case Resume(r) => frame, sent := Resume(s, at, r);
      case CueDone(cue) => CueDoneKeepsFrame(s, cue); sent := CueDone(s, cue);
      case CompleteTurn(id, generation) => sent := CompleteTurn(s, id, generation);
      case Close => Close(s);
    }

    /** Every run of a new server is a run of the machine: what is sent holds at most one answer for
        each request, and the lanes end up disjoint and bounded. */
    method Serve(events: seq<Lanes.Event>) returns (sent: seq<Lanes.Reply>)
      requires InStep(Lanes.Initial())
      modifies this
      ensures InStep(Lanes.Run(Lanes.Initial(), events)) && sent == Lanes.Run(Lanes.Initial(), events).replies
      ensures forall i, j :: 0 <= i < j < |sent| && sent[i].Terminal? && sent[j].Terminal? ==> sent[i].id != sent[j].id
      ensures voices.Keys !! cues.Keys && voices.Keys !! completed && cues.Keys !! completed
      ensures |voices| <= 1 && |cues| <= 1 && |completed| <= 4098
    {
      sent := [];
      var frame := Lanes.Idle;
      ghost var s := Lanes.Initial();
      var i := 0;
      while i < |events|
        invariant i <= |events| && s == Lanes.Run(Lanes.Initial(), events[..i])
        invariant InStep(s) && s.frame == frame && sent == s.replies
      {
        hide Lanes.Next;
        LanesSafety.ReachableInv(events[..i]);
        var more;
        frame, more := Happen(s, frame, events[i]);
        sent := sent + more;
        assert events[..i + 1][..i] == events[..i];
        s := Lanes.Next(s, events[i]);
        i := i + 1;
      }
      assert events[..|events|] == events;
      LanesSafety.ReachableInv(events);
    }
  }

  lemma CueDoneKeepsFrame(s: Lanes.State, cue: nat)
    ensures Lanes.CueDoneNext(s, cue).frame == s.frame
  {
  }

  /** The Cockpit part: the session dictionary in insertion order, and what the commands used up. */
  class CockpitRecords {
    var records: seq<Record>
    var bindings: map<Key, SessionId>
    var commands: set<CommandId>
    var closed: bool
    var nextObj: nat
    var nextNonce: nat

    constructor ()
      ensures InStep(Initial())
    {
      records, bindings, commands := [], map[], {};
      closed, nextObj, nextNonce := false, 0, 0;
    }

    predicate InStep(s: State)
      reads this
    {
      && records == s.records && bindings == s.bindings && commands == s.commands && closed == s.closed
      && nextObj == s.nextObj && nextNonce == s.nextNonce
    }

    /** The place of a session, or the number of records. */
    method Find(session: SessionId) returns (i: nat)
      ensures i == IndexOf(records, session) && i <= |records|
    {
      i := 0;
      while i < |records| && records[i].session != session
        invariant i <= |records| && forall j :: 0 <= j < i ==> records[j].session != session
      {
        i := i + 1;
      }
      assert i == IndexOf(records, session);
    }

    /** Drop terminal sessions, the oldest first, until there is room for one more. */
    method MakeRoomForOne()
      modifies this`records, this`bindings
      ensures (records, bindings) == MakeRoom(old(records), old(bindings))
    {
      var stuck := false;
      while |records| >= MAX_COCKPIT_SESSIONS && !stuck
        invariant MakeRoom(records, bindings) == MakeRoom(old(records), old(bindings))
        invariant stuck ==> FirstTerminal(records) == |records|
        decreases |records|, !stuck
      {
        var i := 0;
        while i < |records| && !IsTerminal(records[i].state)
          invariant i <= |records| && forall j :: 0 <= j < i ==> !IsTerminal(records[j].state)
        {
          i := i + 1;
        }
        assert i == FirstTerminal(records);
        if i == |records| {
          stuck := true;
        } else {
          bindings := bindings - {records[i].session.key};
          records := records[..i] + records[i + 1..];
        }
      }
    }

    /** `open_cockpit_turn`. */
    method OpenTurn(ghost s: State, session: SessionId, generation: nat, voicePending: bool) returns (shared: bool)
      requires InStep(s)
      modifies this`records, this`bindings, this`nextObj
      ensures InStep(OpenNext(s, session, generation, voicePending))
      ensures shared <==> nextObj == old(nextObj) + 1
    {
      hide MakeRoom, IndexOf;
      if closed || !voicePending || !(1 <= generation <= MAX_SAFE_INTEGER) { return false; }
      MakeRoomForOne();
      if |records| >= MAX_COCKPIT_SESSIONS { return false; }
      var record := Record(nextObj, session, generation, Running, [], map[]);
      var i := Find(session);
      records := if i < |records| then records[i := record] else records + [record];
      bindings := bindings[session.key := session];
      nextObj := nextObj + 1;
      shared := true;
    }

    /** `open_cockpit_question` and its two siblings. */
    method Ask(ghost s: State, session: SessionId, kind: Kind, reference: string, reviewable: bool, choices: seq<string>, now: int)
      requires InStep(s)
      modifies this`records, this`nextNonce
      ensures InStep(AskNext(s, session, kind, reference, reviewable, choices, now))
    {
      hide IndexOf;
      if session.key !in bindings || bindings[session.key] != session { return; }
      var i := Find(session);
      if i == |records| { return; }
      var r := records[i];
      var request := RequestId(session, kind, reference);
      if (kind.Question? && (choices == [] || |choices| > 8)) || |r.pending| >= MAX_COCKPIT_PENDING { return; }
      if request in r.backends || !reviewable { return; }
      var item := Item(request, nextNonce, kind, now + INTERACTION_TTL_MS, choices);
      nextNonce := nextNonce + 1;
      records := records[i := r.(pending := r.pending + [item], state := WaitingHuman,
                                 backends := r.backends[request := Backend(kind, reference)])];
    }

    /** `finish_cockpit_turn`. */
    method Finish(ghost s: State, session: SessionId, stop: StopReason)
      requires InStep(s)
      modifies this`records
      ensures InStep(FinishNext(s, session, stop))
    {
      hide IndexOf;
      if session.key !in bindings || bindings[session.key] != session { return; }
      var i := Find(session);
      if i == |records| { return; }
      records := records[i := records[i].(pending := [], backends := map[], state := StateAfter(stop))];
    }

    /** `discard_cockpit_turn`. */
    method Discard(ghost s: State, session: SessionId)
      requires InStep(s)
      modifies this`records, this`bindings
      ensures InStep(DiscardNext(s, session))
    {
      hide IndexOf;
      if session.key !in bindings || bindings[session.key] != session { return; }
      var i := Find(session);
      if i == |records| { return; }
      records := records[..i] + records[i + 1..];
      bindings := bindings - {session.key};
    }

    /** The expiry part of `_cockpit_snapshot`: expired interactions leave each record together with
        their backends. */
    method Expire(ghost s: State, now: int)
      requires InStep(s)
      modifies this`records
      ensures InStep(SnapshotNext(s, now))
    {
      ghost var before := records;
      var i := 0;
      while i < |records|
        invariant i <= |records| == |before|
        invariant forall k :: 0 <= k < |records| ==> records[k] == if k < i then Expired(before[k], now) else before[k]
      {
        var r := records[i];
        var kept := KeepUnexpired(r.pending, now);
        if |kept| != |r.pending| {
          records := records[i := r.(pending := kept, backends := r.backends - (RequestsOf(r.pending) - RequestsOf(kept)),
                                     state := if kept == [] && r.state.WaitingHuman? then Running else r.state)];
        }
        i := i + 1;
      }
    }

    /** The first half of `_handle_cockpit_command`: every new command id is used up, and a valid command
        is handed to the dispatcher with its backend. */
    method BeginCommand(ghost s: State, c: Command, now: int) returns (call: Option<Call>)
      requires InStep(s) && s.inFlight.None?
      modifies this`commands
      ensures InStep(CommandNext(s, c, now)) && CommandNext(s, c, now).inFlight == call
    {
      hide Validate, IndexOf;
      if closed || c.id in commands || |commands| >= MAX_COMMANDS { return None; }
      commands := commands + {c.id};
      var i := Find(c.session);
      if i == |records| { assert RecordOf(records, c.session).None?; return None; }
      var r := records[i];
      assert RecordOf(records, c.session) == Some(r);
      if Validate(Some(r), c, now).Some? { return None; }
      var backend := if Answering(c) && c.request in r.backends then Some(r.backends[c.request]) else None;
      call := Some(Call(c, r.obj, backend));
    }

    /** The second half: an accepted answer takes its request out of the record it was validated against. */
    method EndCommand(ghost s: State, call: Call, outcome: Outcome)
      requires InStep(s) && s.inFlight == Some(call)
      modifies this`records
      ensures InStep(ReceiptNext(s, outcome))
    {
      if !outcome.Accepted? { return; }
      var i := 0;
      while i < |records| && records[i].obj != call.obj
        invariant i <= |records| && forall j :: 0 <= j < i ==> records[j].obj != call.obj
      {
        i := i + 1;
      }
      assert i == IndexOfObj(records, call.obj);
      if i == |records| { return; }
      var r := records[i];
      if Answering(call.command) {
        var kept := KeepUnanswered(r.pending, call.command.request);
        r := r.(pending := kept, backends := r.backends - {call.command.request},
                state := if kept != [] then WaitingHuman else Running);
      } else if call.command.Interrupt? {
        r := r.(state := Interrupting);
      }
      records := records[i := r];
    }

    method Close(ghost s: State)
      requires InStep(s)
      modifies this
      ensures InStep(Next(s, Event.Close))
    {
      records, bindings, commands, closed := [], map[], {}, true;
    }

    /** One event of the Cockpit; `call` is the command whose dispatcher is awaited. */
    method Happen(ghost s: State, call: Option<Call>, e: Event) returns (next: Option<Call>, dispatched: seq<Call>)
      requires InStep(s) && s.inFlight == call
      modifies this
      ensures var s' := Next(s, e); InStep(s') && s'.inFlight == next && s'.calls == s.calls + dispatched
    {
      next, dispatched := call, [];
      FlightAndCalls(s, e);
      hide OpenNext, AskNext, DiscardNext, FinishNext, SnapshotNext, CommandNext, ReceiptNext;
      match e
      case OpenTurn(session, generation, voicePending) => { var shared := OpenTurn(s, session, generation, voicePending); }
      case Ask(session, kind, reference, reviewable, choices, now) => Ask(s, session, kind, reference, reviewable, choices, now);
      case Discard(session) => Discard(s, session);
      case Finish(session, stop) => Finish(s, session, stop);
      case Snapshot(now) => Expire(s, now);
      case Command(c, now) =>
        if call.None? {
          next := BeginCommand(s, c, now);
          dispatched := if next.Some? then [next.value] else [];
        }
      case Receipt(outcome) =>
        if call.Some? { EndCommand(s, call.value, outcome); }
        next := None;
      case Close => Close(s);
    }

    /** Every run of a new Cockpit is a run of the machine: each command id reaches the dispatcher at most
        once, and every session ends up with exactly the backends of its pending interactions. */
    method Serve(events: seq<Event>) returns (calls: seq<Call>)
      requires InStep(Initial())
      modifies this
      ensures InStep(Run(Initial(), events)) && calls == Run(Initial(), events).calls
      ensures forall i, j :: 0 <= i < j < |calls| ==> calls[i].command.id != calls[j].command.id
      ensures |records| <= MAX_COCKPIT_SESSIONS
      ensures forall k :: 0 <= k < |records| ==> records[k].backends.Keys == RequestsOf(records[k].pending)
    {
      calls := [];
      var call := None;
      ghost var s := Initial();
      var i := 0;
      hide Next;
      while i < |events|
        invariant i <= |events| && s == Run(Initial(), events[..i])
        invariant InStep(s) && s.inFlight == call && calls == s.calls
      {
        var more;
        call, more := Happen(s, call, events[i]);
        calls := calls + more;
        assert events[..i + 1][..i] == events[..i];
        s := Next(s, events[i]);
        i := i + 1;
      }
      assert events[..|events|] == events;
      CockpitSafety.ReachableInv(events);
      hide Run, CockpitSafety.ItemsOk;
      forall k | 0 <= k < |records| ensures records[k].backends.Keys == RequestsOf(records[k].pending) {
        assert CockpitSafety.RecordOk(records[k]);
      }
    }
  }

  /** Only a command that is dispatched sets the call in flight, and only a receipt clears it. */
  lemma FlightAndCalls(s: State, e: Event)
    ensures var s' := Next(s, e);
            && (!e.Command? && !e.Receipt? ==> s'.inFlight == s.inFlight && s'.calls == s.calls)
            && (e.Receipt? ==> s'.inFlight.None? && s'.calls == s.calls && (s.inFlight.None? ==> s' == s))
            && (e.Command? && s.inFlight.Some? ==> s' == s)
            && (e.Command? && s.inFlight.None? ==>
                  s'.calls == s.calls + if s'.inFlight.Some? then [s'.inFlight.value] else [])
  {
    hide IndexOf, IndexOfObj, MakeRoom, Validate, Unanswered, Unexpired;
  }

  /** The pending items of all other requests. */
  method KeepUnanswered(pending: seq<Item>, request: RequestId) returns (kept: seq<Item>)
    ensures kept == Unanswered(pending, request)
  {
    kept := [];
    var i := 0;
    while i < |pending|
      invariant i <= |pending| && kept == Unanswered(pending[..i], request)
    {
      assert pending[..i + 1][..i] == pending[..i];
      if pending[i].request != request { kept := kept + [pending[i]]; }
      i := i + 1;
    }
    assert pending[..|pending|] == pending;
  }

  /** The pending items that have not expired. */
  method KeepUnexpired(pending: seq<Item>, now: int) returns (kept: seq<Item>)
    ensures kept == Unexpired(pending, now)
  {
    kept := [];
    var i := 0;
    while i < |pending|
      invariant i <= |pending| && kept == Unexpired(pending[..i], now)
    {
      assert pending[..i + 1][..i] == pending[..i];
      if pending[i].expires > now { kept := kept + [pending[i]]; }
      i := i + 1;
    }
    assert pending[..|pending|] == pending;
  }
}
