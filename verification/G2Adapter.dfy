/**
 The adapter object of adapter.py with its turn objects, updated in place.  Every method that runs
 from one await to the next is shown to do exactly what the machine of `TurnProtocol` does, with
 references to turn objects where the machine has numbers.
 */
module G2Adapter {
  import opened Options
  import opened TurnProtocol
  import opened TurnEffects

  class TurnObject {
    const id: TurnId
    const generation: nat
    const phone: PhoneId
    const binding: Binding
    var finished: bool
    var text: string
    /** The place of the object in the order of creation. */
    const serial: nat

    constructor (id: TurnId, generation: nat, phone: PhoneId, binding: Binding, serial: nat)
      ensures Value() == Turn(id, generation, phone, binding, false, "") && this.serial == serial
    {
      this.id, this.generation, this.phone, this.binding := id, generation, phone, binding;
      this.serial := serial;
      finished, text := false, "";
    }

    function Value(): Turn
      reads this
    {
      Turn(id, generation, phone, binding, finished, text)
    }
  }

  /** A coroutine at an await, holding the turn object itself. */
  datatype Frame =
    | Idle
    | PhoneDropped
    | WaitCancel(turn: TurnObject, sendDone: bool, cont: Cont)
    | WaitFinish(turn: TurnObject, cont: Cont)
    | WaitReply(turn: TurnObject, cont: Cont)
    | WaitOpen(turn: TurnObject)
    | WaitDispatch(turn: TurnObject)
    | WaitAbort(turn: TurnObject)
    | WaitDiscard(turn: TurnObject)

  function TaskOf(f: Frame): Task {
    match f
    case Idle => Done
    case PhoneDropped => Dropping
    case WaitCancel(turn, sendDone, cont) => Cancelling(turn.serial, sendDone, cont)
    case WaitFinish(turn, cont) => FinishCockpit(turn.serial, cont)
    case WaitReply(turn, cont) => FinishReply(turn.serial, cont)
    case WaitOpen(turn) => OpenCockpit(turn.serial)
    case WaitDispatch(turn) => Dispatching(turn.serial)
    case WaitAbort(turn) => AbortCancel(turn.serial)
    case WaitDiscard(turn) => AbortDiscard(turn.serial)
  }

  function ValuesOf(made: seq<TurnObject>): (r: seq<Turn>)
    reads made
    ensures |r| == |made| && forall i :: 0 <= i < |r| ==> r[i] == made[i].Value()
  {
    if made == [] then [] else ValuesOf(made[..|made| - 1]) + [made[|made| - 1].Value()]
  }

  function SerialsOf(turns: map<TurnId, TurnObject>): map<TurnId, Obj> {
    map id | id in turns :: turns[id].serial
  }

  predicate KnownIn(made: seq<TurnObject>, turn: TurnObject) {
    turn.serial < |made| && made[turn.serial] == turn
  }

  predicate SerialsOk(made: seq<TurnObject>) {
    forall i :: 0 <= i < |made| ==> made[i].serial == i
  }

  predicate TurnsOk(turns: map<TurnId, TurnObject>, made: seq<TurnObject>) {
    forall id :: id in turns ==> KnownIn(made, turns[id]) && turns[id].id == id
  }

  lemma OneMore(turns: map<TurnId, TurnObject>, made: seq<TurnObject>, turn: TurnObject)
    requires SerialsOk(made) && TurnsOk(turns, made) && turn.serial == |made|
    ensures SerialsOk(made + [turn]) && TurnsOk(turns[turn.id := turn], made + [turn])
    ensures KnownIn(made + [turn], turn)
  {
  }

  lemma StartIgnoresRouting(t: Tables, task: Task, r: Result, routed: bool)
    requires task.OpenCockpit? || task.Dispatching? || task.AbortCancel? || task.AbortDiscard?
    ensures Step(t, task, r, routed) == Step(t, task, r, true)
  {
  }

  lemma SerialsWithout(turns: map<TurnId, TurnObject>, id: TurnId)
    ensures SerialsOf(turns - {id}) == SerialsOf(turns) - {id}
  {
  }

  lemma SerialsWith(turns: map<TurnId, TurnObject>, id: TurnId, turn: TurnObject)
    ensures SerialsOf(turns[id := turn]) == SerialsOf(turns)[id := turn.serial]
  {
  }

  class Adapter {
    var turns: map<TurnId, TurnObject>
    var routes: map<EventId, Route>
    var active: Option<TurnId>
    var nextGeneration: nat
    var phone: Option<PhoneId>
    var nextPhone: PhoneId
    var nextSerial: nat
    ghost var made: seq<TurnObject>

    ghost predicate Valid()
      reads this
    {
      nextSerial == |made| && SerialsOk(made) && TurnsOk(turns, made)
    }

    ghost predicate Known(turn: TurnObject)
      reads this
    {
      KnownIn(made, turn)
    }

    ghost function View(): Tables
      reads this, made
    {
      Tables(ValuesOf(made), SerialsOf(turns), routes, active, nextGeneration, phone, nextPhone)
    }

    constructor ()
      ensures Valid() && View() == Initial().tables
    {
      turns, routes, active := map[], map[], None;
      nextGeneration, phone, nextPhone, nextSerial := 1, None, 0, 0;
      made := [];
    }

    /** `self._turns.get(turn.turn_id) is turn` */
    predicate IsTabled(turn: TurnObject)
      reads this
    {
      turn.id in turns && turns[turn.id] == turn
    }

    lemma TabledAgrees(turn: TurnObject)
      requires Valid() && Known(turn)
      ensures IsTabled(turn) <==> Tabled(View(), turn.serial)
      ensures View().objs[turn.serial] == turn.Value()
    {
    }

    predicate OwnsTurn(turn: TurnObject, requireActive: bool, requireUnfinished: bool)
      reads this, turn
    {
      && IsTabled(turn)
      && (requireActive ==> active == Some(turn.id))
      && phone == Some(turn.phone)
      && (requireUnfinished ==> !turn.finished)
    }

    lemma OwnsAgrees(turn: TurnObject, requireActive: bool, requireUnfinished: bool)
      requires Valid() && Known(turn)
      ensures OwnsTurn(turn, requireActive, requireUnfinished) <==> Owns(View(), turn.serial, requireActive, requireUnfinished)
    {
      TabledAgrees(turn);
    }

    method ForgetTurn(turn: TurnObject)
      requires Valid() && Known(turn)
      modifies this`turns, this`routes, this`active
      ensures Valid() && View() == Forget(old(View()), turn.serial)
    {
      TabledAgrees(turn);
      SerialsWithout(turns, turn.id);
      assert TurnsOk(turns - {turn.id}, made);
      hide ValuesOf, SerialsOf, SerialsOk, TurnsOk;
      if IsTabled(turn) {
        turns := turns - {turn.id};
        routes := routes - {EventId(turn.generation, turn.id)};
        active := if active == Some(turn.id) then None else active;
      }
    }

    method InsertTurn(id: TurnId, owner: PhoneId, binding: Binding, generation: nat) returns (turn: TurnObject)
      requires Valid()
      modifies this`turns, this`routes, this`active, this`made, this`nextSerial
      ensures Valid() && fresh(turn) && made == old(made) + [turn] && Known(turn)
      ensures View() == Insert(old(View()).(nextGeneration := generation), id, owner, binding).(nextGeneration := nextGeneration)
      ensures turn.serial == old(nextSerial)
    {
      hide SerialsOf, SerialsOk, TurnsOk, KnownIn;
      ghost var before := ValuesOf(made);
      turn := new TurnObject(id, generation, owner, binding, nextSerial);
      SerialsWith(turns, id, turn);
      OneMore(turns, made, turn);
      nextSerial := nextSerial + 1;
      made := made + [turn];
      turns := turns[id := turn];
      routes := routes[EventId(generation, id) := Route(id, generation)];
      active := Some(id);
      assert ValuesOf(made) == before + [turn.Value()] by { assert made[..|made| - 1] == old(made); }
    }

    method CreateTurn(id: TurnId, expected: PhoneId, binding: Binding, routed: bool) returns (f: Frame)
      requires Valid()
      modifies this
      ensures Valid() && Grown(old(made))
      ensures Segment(View(), TaskOf(f), []) == Create(old(View()), id, expected, binding, routed)
      ensures FrameKnown(f)
    {
      if phone != Some(expected) { return Idle; }
      var generation := nextGeneration;
      nextGeneration := nextGeneration + 1;
      if !routed { return Idle; }
      var turn := InsertTurn(id, expected, binding, generation);
      f := WaitOpen(turn);
    }

    /** The objects of before are still the first ones, and all others are new. */
    twostate predicate Grown(before: seq<TurnObject>)
      reads this
    {
      before <= made && forall i :: |before| <= i < |made| ==> fresh(made[i])
    }

    ghost predicate FrameKnown(f: Frame)
      reads this
    {
      !f.Idle? && !f.PhoneDropped? ==> Known(f.turn)
    }

    method FinishObject(turn: TurnObject)
      requires Valid() && Known(turn)
      modifies turn`finished
      ensures Valid() && View() == MarkFinished(old(View()), turn.serial)
    {
      ghost var before := ValuesOf(made);
      TabledAgrees(turn);
      turn.finished := true;
      hide TurnsOk, SerialsOf;
      assert ValuesOf(made) == before[turn.serial := turn.Value()];
    }

    /** `_start_turn` after a possible cancellation, or nothing. */
    method GoOn(cont: Cont, routed: bool) returns (f: Frame)
      requires Valid()
      modifies this
      ensures Valid() && Grown(old(made)) && FrameKnown(f)
      ensures Segment(View(), TaskOf(f), []) == Continue(old(View()), cont, routed)
    {
      match cont
      case End => f := Idle;
      case StartTurn(id, owner, binding) => f := CreateTurn(id, owner, binding, routed);
    }

    /** `_cancel_active_turn` up to its await. */
    method CancelActive(sendDone: bool, cont: Cont, routed: bool) returns (f: Frame)
      requires Valid()
      modifies this
      ensures Valid() && Grown(old(made)) && FrameKnown(f)
      ensures Segment(View(), TaskOf(f), []) == BeginCancel(old(View()), sendDone, cont, routed)
    {
      if active.None? {
        f := GoOn(cont, routed);
      } else if active.value !in turns {
        active := None;
        f := GoOn(cont, routed);
      } else {
        f := WaitCancel(turns[active.value], sendDone, cont);
      }
    }

    method ForgetAndGoOn(turn: TurnObject, cont: Cont, routed: bool) returns (f: Frame)
      requires Valid() && Known(turn)
      modifies this
      ensures Valid() && Grown(old(made)) && FrameKnown(f)
      ensures Segment(View(), TaskOf(f), []) == Continue(Forget(old(View()), turn.serial), cont, routed)
    {
      hide Continue, Forget;
      ForgetTurn(turn);
      f := GoOn(cont, routed);
    }

    /** The rest of `_finish_turn` up to its first await, once the turn is marked. */
    method FinishMarked(turn: TurnObject, cont: Cont, routed: bool) returns (f: Frame)
      requires Valid() && Known(turn)
      modifies this
      ensures Valid() && Grown(old(made)) && FrameKnown(f)
      ensures Segment(View(), TaskOf(f), [])
              == if Owns(old(View()), turn.serial, false, false) then Segment(old(View()), FinishCockpit(turn.serial, cont), [])
                 else Continue(Forget(old(View()), turn.serial), cont, routed)
    {
      OwnsAgrees(turn, false, false);
      if OwnsTurn(turn, false, false) {
        f := WaitFinish(turn, cont);
      } else {
        hide Continue, Forget, View, Valid, Known, Owns, OwnsTurn;
        f := ForgetAndGoOn(turn, cont, routed);
      }
    }

    /** The first part of `_finish_turn` for a turn that is not finished yet. */
    method MarkAndFinish(turn: TurnObject, cont: Cont, routed: bool) returns (f: Frame)
      requires Valid() && Known(turn)
      modifies this, turn`finished
      ensures Valid() && Grown(old(made)) && FrameKnown(f)
      ensures var marked := MarkFinished(old(View()), turn.serial);
              Segment(View(), TaskOf(f), [])
              == if Owns(marked, turn.serial, false, false) then Segment(marked, FinishCockpit(turn.serial, cont), [])
                 else Continue(Forget(marked, turn.serial), cont, routed)
    {
      hide Continue, Forget, View, Valid, Known, Owns, MarkFinished, FrameKnown;
      FinishObject(turn);
      f := FinishMarked(turn, cont, routed);
    }

    /** `_finish_turn` up to its first await. */
    method FinishTurn(turn: TurnObject, cont: Cont, routed: bool) returns (f: Frame)
      requires Valid() && Known(turn)
      modifies this, turn`finished
      ensures Valid() && Grown(old(made)) && FrameKnown(f)
      ensures Segment(View(), TaskOf(f), []) == BeginFinish(old(View()), turn.serial, cont, routed)
    {
      TabledAgrees(turn);
      var over := !IsTabled(turn) || turn.finished;
      assert over <==> !Tabled(View(), turn.serial) || View().objs[turn.serial].finished;
      hide Continue, Forget, View, Valid, Known, Owns, MarkFinished, Tabled, OwnsTurn, IsTabled, FrameKnown, Grown;
      if over {
        f := GoOn(cont, routed);
      } else {
        f := MarkAndFinish(turn, cont, routed);
      }
    }

    /** The exception handler of `_start_turn`. */
    method AbortStart(turn: TurnObject) returns (f: Frame)
      requires Valid() && Known(turn)
      modifies this`turns, this`routes, this`active
      ensures Valid() && FrameKnown(f)
      ensures Segment(View(), TaskOf(f), []) == Abort(old(View()), turn.serial)
    {
      OwnsAgrees(turn, true, false);
      if OwnsTurn(turn, true, false) { return WaitAbort(turn); }
      ForgetTurn(turn);
      f := Idle;
    }

    /** A start resumes. */
    method ResumeStart(f: Frame, r: Result) returns (next: Frame, effects: seq<Effect>)
      requires Valid() && FrameKnown(f) && (f.WaitOpen? || f.WaitDispatch? || f.WaitAbort? || f.WaitDiscard?)
      modifies this`turns, this`routes, this`active
      ensures Valid() && FrameKnown(next)
      ensures Segment(View(), TaskOf(next), effects) == Step(old(View()), TaskOf(f), r, true)
    {
      next, effects := Idle, [];
      hide Forget, Abort, View, Valid, Known, Owns, OwnsTurn;
      var turn := f.turn;
      OwnsAgrees(turn, true, true);
      OwnsAgrees(turn, true, false);
      match f
      case WaitOpen(_) =>
        if r.Ok? && OwnsTurn(turn, true, true) {
          next, effects := WaitDispatch(turn), [Dispatched(turn.serial)];
        } else { next := AbortStart(turn); }
      case WaitDispatch(_) =>
        if !(r.Ok? && OwnsTurn(turn, true, true)) { next := AbortStart(turn); }
      case WaitAbort(_) =>
        if !r.Cancelled? {
          if OwnsTurn(turn, true, false) { next := WaitDiscard(turn); } else { ForgetTurn(turn); }
        }
      case WaitDiscard(_) =>
        if !r.Cancelled? { ForgetTurn(turn); }
    }

    /** A finish resumes. */
    method ResumeFinish(f: Frame, r: Result, routed: bool) returns (next: Frame, effects: seq<Effect>)
      requires Valid() && FrameKnown(f) && (f.WaitFinish? || f.WaitReply?)
      modifies this
      ensures Valid() && Grown(old(made)) && FrameKnown(next)
      ensures Segment(View(), TaskOf(next), effects) == Step(old(View()), TaskOf(f), r, routed)
    {
      hide Continue, Forget, View, Valid, Known, Owns, OwnsTurn, Tabled, IsTabled;
      next, effects := Idle, [];
      var turn := f.turn;
      OwnsAgrees(turn, false, false);
      TabledAgrees(turn);
      if f.WaitFinish? && r.Cancelled? {
        ForgetTurn(turn);
      } else if f.WaitFinish? && OwnsTurn(turn, false, false) {
        next, effects := WaitReply(turn, f.cont), [Replied(turn.serial, turn.text)];
      } else if f.WaitFinish? || r.Ok? {
        next := ForgetAndGoOn(turn, f.cont, routed);
      } else {
        ForgetTurn(turn);
      }
    }

    /** Any suspended coroutine runs from its await to the next one. */
    method Resume(f: Frame, r: Result, routed: bool) returns (next: Frame, effects: seq<Effect>)
      requires Valid() && FrameKnown(f)
      modifies this, made
      ensures Valid() && Grown(old(made)) && FrameKnown(next)
      ensures Segment(View(), TaskOf(next), effects) == Step(old(View()), TaskOf(f), r, routed)
    {
      next, effects := Idle, [];
      assert f.WaitCancel? ==> f.turn in made;
      hide Continue, Forget, BeginFinish, BeginCancel, View, Valid, Known;
      if f.PhoneDropped? {
        if r.Ok? { next := CancelActive(false, End, routed); }
      } else if f.WaitCancel? {
        if r.Ok? && f.sendDone { next := FinishTurn(f.turn, f.cont, routed); }
        else if r.Ok? { next := ForgetAndGoOn(f.turn, f.cont, routed); }
      } else if f.WaitFinish? || f.WaitReply? {
        hide Step;
        next, effects := ResumeFinish(f, r, routed);
      } else if !f.Idle? {
        StartIgnoresRouting(View(), TaskOf(f), r, routed);
        hide Step;
        next, effects := ResumeStart(f, r);
      }
    }

    /** The turn object that an event id leads to, finished or not. */
    function Resolve(event: EventId): (r: Option<TurnObject>)
      reads this, made
      requires Valid()
      ensures r.Some? <==> Routed(View(), event).Some?
      ensures r.Some? ==> Known(r.value) && Routed(View(), event) == Some(r.value.serial)
    {
      if event !in routes || routes[event].turnId !in turns then None
      else
        var turn := turns[routes[event].turnId];
        assert View().objs[turn.serial] == turn.Value();
        if EventId(turn.generation, turn.id) == event && turn.generation == routes[event].generation then Some(turn) else None
    }

    /** `authorization_is_current`. */
    predicate IsCurrent(a: Authority)
      reads this, made
      requires Valid()
      ensures IsCurrent(a) <==> TurnProtocol.Valid(View(), a)
    {
      && a.event in routes && routes[a.event] == Route(a.turnId, a.generation)
      && a.turnId in turns
      && var turn := turns[a.turnId];
         assert View().objs[turn.serial] == turn.Value();
         && !turn.finished && active == Some(a.turnId) && EventId(turn.generation, turn.id) == a.event && turn.generation == a.generation
    }

    /** `_resolve_turn`: the first candidate event that leads to an unfinished turn of the requested
        generation. */
    method ResolveTurn(candidates: seq<EventId>, requested: Option<nat>) returns (r: Option<TurnObject>)
      requires Valid()
      ensures r.Some? ==> Known(r.value)
      ensures Resolved(View(), candidates, requested) == if r.Some? then Some(r.value.serial) else None
    {
      hide Routed, View;
      var i := 0;
      r := None;
      while i < |candidates|
        invariant i <= |candidates|
        invariant Resolved(View(), candidates[i..], requested) == Resolved(View(), candidates, requested)
      {
        var turn := Resolve(candidates[i]);
        assert turn.Some? ==> View().objs[turn.value.serial] == turn.value.Value() by {
          if turn.Some? { TabledAgrees(turn.value); }
        }
        if turn.Some? && !turn.value.finished && (requested.None? || requested.value == turn.value.generation) {
          assert candidates[i..][0] == candidates[i];
          return turn;
        }
        assert candidates[i..][1..] == candidates[i + 1..];
        i := i + 1;
      }
    }

    /** `send`. */
    method Say(candidates: seq<EventId>, requested: Option<nat>, text: string)
      requires Valid()
      modifies made
      ensures Valid() && View() == Spoken(old(View()), candidates, requested, text)
    {
      hide Resolved, View, Valid, Known;
      var turn := ResolveTurn(candidates, requested);
      if phone.Some? && turn.Some? {
        KnownIsMade(turn.value);
        SpeakObject(turn.value, text);
      }
      assert View().phone == phone by { ViewHasPhone(); }
    }

    method SpeakObject(turn: TurnObject, text: string)
      requires Valid() && Known(turn)
      modifies turn`text
      ensures Valid() && View() == old(View()).(objs := old(View()).objs[turn.serial := old(View()).objs[turn.serial].(text := text)])
    {
      ghost var before := ValuesOf(made);
      TabledAgrees(turn);
      turn.text := text;
      hide TurnsOk, SerialsOf;
      assert ValuesOf(made) == before[turn.serial := turn.Value()];
    }

    lemma KnownIsMade(turn: TurnObject)
      requires Valid() && Known(turn)
      ensures turn in made && turn.serial < |View().objs|
    {
    }

    lemma ViewHasPhone()
      requires Valid()
      ensures View().phone == phone
    {
    }

    // -------------------------------------------------------------- whole runs

    ghost predicate FramesKnown(frames: seq<Frame>)
      reads this
    {
      forall k :: 0 <= k < |frames| ==> FrameKnown(frames[k])
    }

    /** The fields and the suspended coroutines are those of the machine. */
    ghost predicate InStep(s: State, frames: seq<Frame>)
      reads this, made
    {
      Valid() && View() == s.tables && TasksOf(frames) == s.tasks && FramesKnown(frames)
    }

    /** What a new coroutine did up to its first await, if one was begun. */
    ghost predicate Began(s: State, s': State, f: Option<Frame>)
      reads this, made
    {
      Valid() && (f.Some? ==> FrameKnown(f.value))
      && View() == s'.tables && s' == if f.Some? then Spawn(s, Segment(View(), TaskOf(f.value), [])) else s.(tables := View())
    }

    /** The start of a voice turn, a cancellation by the host or the end of a turn's processing. */
    method Begin(ghost s: State, e: Event) returns (f: Option<Frame>)
      requires Valid() && View() == s.tables && (e.VoiceTurn? || e.HostCancel? || e.Complete?)
      modifies this, made
      ensures Grown(old(made)) && Began(s, Next(s, e), f)
    {
      f := None;
      hide BeginCancel, BeginFinish, Create, Routed, Continue;
      match e
      case VoiceTurn(id, binding, routed) => f := Voice(id, binding, routed);
      case HostCancel(binding) => f := CancelBound(binding);
      case Complete(event, generation) => f := CompleteTurn(event, generation);
    }

    method Voice(id: TurnId, binding: Binding, routed: bool) returns (f: Option<Frame>)
      requires Valid()
      modifies this
      ensures Valid() && Grown(old(made)) && (f.Some? ==> FrameKnown(f.value))
      ensures f.None? ==> View() == old(View()) && old(View()).phone.None?
      ensures f.Some? ==>
                var t := old(View());
                t.phone.Some?
                && Segment(View(), TaskOf(f.value), [])
                   == if t.active.Some? then BeginCancel(t, true, StartTurn(id, t.phone.value, binding), routed)
                      else Create(t, id, t.phone.value, binding, routed)
    {
      hide BeginCancel, Create, Continue;
      if phone.None? { return None; }
      var frame;
      if active.Some? { frame := CancelActive(true, StartTurn(id, phone.value, binding), routed); }
      else { frame := CreateTurn(id, phone.value, binding, routed); }
      f := Some(frame);
    }

    /** `_cancel_turn` for the host binding of the active turn. */
    method CancelBound(binding: Binding) returns (f: Option<Frame>)
      requires Valid()
      modifies this
      ensures Valid() && Grown(old(made)) && (f.Some? ==> FrameKnown(f.value))
      ensures var t := old(View());
              var ours := t.phone.Some? && t.active.Some? && t.active.value in t.turns && t.turns[t.active.value] < |t.objs|
                          && t.objs[t.turns[t.active.value]].binding == binding;
              if f.Some? then ours && Segment(View(), TaskOf(f.value), []) == BeginCancel(t, true, End, true)
              else !ours && View() == t
    {
      hide BeginCancel, Continue;
      if phone.None? || active.None? || active.value !in turns { return None; }
      var turn := turns[active.value];
      TabledAgrees(turn);
      if turn.binding != binding { return None; }
      var frame := CancelActive(true, End, true);
      f := Some(frame);
    }

    /** `on_processing_complete`. */
    method CompleteTurn(event: EventId, generation: nat) returns (f: Option<Frame>)
      requires Valid()
      modifies this, made
      ensures Valid() && Grown(old(made)) && (f.Some? ==> FrameKnown(f.value))
      ensures var t := old(View()); var o := Routed(t, event);
              if f.Some? then o.Some? && generation == event.generation
                              && Segment(View(), TaskOf(f.value), []) == BeginFinish(t, o.value, End, true)
              else (o.None? || generation != event.generation) && View() == t
    {
      hide BeginFinish, Routed, View;
      var turn := Resolve(event);
      if turn.None? || generation != event.generation { return None; }
      var frame := FinishTurn(turn.value, End, true);
      f := Some(frame);
    }

    /** The step of the machine was taken: its tables, its coroutines and what left. */
    twostate predicate Stepped(s: State, s': State, new next: seq<Frame>, effects: seq<Effect>)
      reads this, made
    {
      InStep(s', next) && Grown(old(made)) && s'.log == s.log + effects
    }

    /** A suspended coroutine runs to its next await. */
    method RunTask(ghost s: State, frames: seq<Frame>, k: nat, r: Result, routed: bool) returns (next: seq<Frame>, effects: seq<Effect>)
      requires InStep(s, frames)
      modifies this, made
      ensures Stepped(s, Next(s, Event.Resume(k, r, routed)), next, effects)
    {
      next, effects := frames, [];
      hide Step, View;
      if k < |frames| {
        var f;
        f, effects := Resume(frames[k], r, routed);
        next := frames[k := f];
      }
    }

    /** A coroutine begins and runs to its first await. */
    method RunNew(ghost s: State, frames: seq<Frame>, e: Event) returns (next: seq<Frame>, effects: seq<Effect>)
      requires InStep(s, frames) && (e.VoiceTurn? || e.HostCancel? || e.Complete?)
      modifies this, made
      ensures Stepped(s, Next(s, e), next, effects)
    {
      hide Next, View;
      next, effects := frames, [];
      var f := Begin(s, e);
      if f.Some? { next := frames + [f.value]; }
    }

    /** What happens without a coroutine: a phone comes or goes, or text is spoken. */
    method RunOutside(ghost s: State, frames: seq<Frame>, e: Event) returns (next: seq<Frame>, effects: seq<Effect>)
      requires InStep(s, frames) && (e.Attach? || e.Drop? || e.Say?)
      modifies this, made
      ensures Stepped(s, Next(s, e), next, effects)
    {
      next, effects := frames, [];
      ViewHasPhone();
      hide Spoken, View;
      if e.Say? {
        Say(e.candidates, e.requested, e.text);
      } else if e.Attach? {
        AttachPhone();
      } else if phone.Some? {
        DropPhone();
        next := frames + [PhoneDropped];
      }
    }

    /** One event of the adapter. */
    method Happen(ghost s: State, frames: seq<Frame>, e: Event) returns (next: seq<Frame>, effects: seq<Effect>)
      requires InStep(s, frames)
      modifies this, made
      ensures Stepped(s, Next(s, e), next, effects)
    {
      hide Next, View, InStep, Stepped;
      if e.VoiceTurn? || e.HostCancel? || e.Complete? { next, effects := RunNew(s, frames, e); }
      else if e.Resume? { next, effects := RunTask(s, frames, e.k, e.result, e.routed); }
      else { next, effects := RunOutside(s, frames, e); }
    }

    method AttachPhone()
      requires Valid()
      modifies this`phone, this`nextPhone
      ensures Valid() && View() == old(View()).(phone := Some(old(View()).nextPhone), nextPhone := old(View()).nextPhone + 1)
    {
      phone, nextPhone := Some(nextPhone), nextPhone + 1;
    }

    method DropPhone()
      requires Valid()
      modifies this`phone
      ensures Valid() && View() == old(View()).(phone := None)
    {
      phone := None;
    }

    /** Every run of a new adapter is a run of the machine: what leaves it holds at most one dispatch
        and at most one answer for each turn object. */
    method Serve(events: seq<Event>) returns (effects: seq<Effect>)
      requires Valid() && made == [] && View() == Initial().tables
      modifies this
      ensures Valid() && View() == Run(Initial(), events).tables && effects == Run(Initial(), events).log
      ensures forall i, j :: 0 <= i < j < |effects| && effects[i].Replied? == effects[j].Replied? ==> effects[i].obj != effects[j].obj
    {
      effects := [];
      var frames: seq<Frame> := [];
      ghost var s := Initial();
      var n := 0;
      hide Next, View, Valid;
      while n < |events|
        invariant n <= |events| && s == Run(Initial(), events[..n])
        invariant InStep(s, frames) && effects == s.log && Grown([])
      {
        var more;
        frames, more := Happen(s, frames, events[n]);
        effects := effects + more;
        assert events[..n + 1][..n] == events[..n];
        s := Next(s, events[n]);
        n := n + 1;
      }
      assert events[..|events|] == events;
      forall i, j | 0 <= i < j < |effects| && effects[i].Replied? == effects[j].Replied? ensures effects[i].obj != effects[j].obj {
        AtMostOnce(events, i, j);
      }
    }
  }

  function TasksOf(frames: seq<Frame>): (tasks: seq<Task>)
    ensures |tasks| == |frames| && forall k :: 0 <= k < |tasks| ==> tasks[k] == TaskOf(frames[k])
  {
    seq(|frames|, k requires 0 <= k < |frames| => TaskOf(frames[k]))
  }
}
