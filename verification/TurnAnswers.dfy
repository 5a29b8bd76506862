/** What a turn is owed: when its dispatch and its answer leave, and how a turn ends that nobody disturbs. */
module TurnAnswers {
  import opened Options
  import opened TurnProtocol
  import opened TurnInvariant
  import opened TurnSafety
  import opened TurnEffects

  // ---------------------------------------------------------------- exactly when something leaves

  /** Object `o` holds its id in the table, and its phone is the one that is connected. */
  predicate OnItsPhone(t: Tables, o: Obj) {
    && o < |t.objs| && t.objs[o].id in t.turns && t.turns[t.objs[o].id] == o
    && t.phone == Some(t.objs[o].phone)
  }

  /** The coroutine that has closed the Cockpit session of `o` goes on, and `o` can still be answered. */
  predicate AnswersNow(s: State, e: Event, o: Obj) {
    && e.Resume? && e.k < |s.tasks| && !e.result.Cancelled?
    && s.tasks[e.k].FinishCockpit? && s.tasks[e.k].obj == o && OnItsPhone(s.tables, o)
  }

  /** The Cockpit session of `o` is open, and `o` is the active turn and not finished. */
  predicate DispatchesNow(s: State, e: Event, o: Obj) {
    && e.Resume? && e.k < |s.tasks| && e.result.Ok?
    && s.tasks[e.k].OpenCockpit? && s.tasks[e.k].obj == o && OnItsPhone(s.tables, o)
    && s.tables.active == Some(s.tables.objs[o].id) && !s.tables.objs[o].finished
  }

  lemma ResumeLeaves(s: State, k: nat, r: Result, routed: bool)
    requires k < |s.tasks| && TablesOk(s.tables) && TasksOk(s)
    ensures var e := Resume(k, r, routed); var log := Next(s, e).log;
            && (forall o: Obj :: AnswersNow(s, e, o) ==> log == s.log + [Replied(o, s.tables.objs[o].text)])
            && (forall o: Obj :: DispatchesNow(s, e, o) ==> log == s.log + [Dispatched(o)])
            && ((forall o: Obj :: !AnswersNow(s, e, o) && !DispatchesNow(s, e, o)) ==> log == s.log)
  {
    var task := s.tasks[k];
    StepFate(s.tables, task, r, routed) by { assert TaskOk(s, task); }
    hide TablesOk, TasksOk;
    if HasObj(task) {
      var e := Resume(k, r, routed);
      assert Owns(s.tables, task.obj, false, false) <==> OnItsPhone(s.tables, task.obj);
      assert !AnswersNow(s, e, task.obj) && !DispatchesNow(s, e, task.obj) ==> Next(s, e).log == s.log by {
        hide BeginFinish, BeginCancel, Continue, Forget;
      }
      hide BeginFinish, BeginCancel, Continue, Forget;
    }
  }

  lemma OthersLeaveNothing(s: State, e: Event)
    requires TablesOk(s.tables) && (e.Resume? ==> e.k >= |s.tasks|)
    ensures Next(s, e).log == s.log
  {
    if e.VoiceTurn? || e.HostCancel? {
      hide TablesOk, Next;
      StartIsSilent(s, e);
    } else if e.Complete? {
      var o := Routed(s.tables, e.event);
      if o.Some? {
        BeginFinishFate(s.tables, Done, o.value, End, true);
        SpawnedIsSilent(s.tables, BeginFinish(s.tables, o.value, End, true));
      }
      hide TablesOk, Fate, BeginFinish, Routed;
    } else {
      hide TablesOk, Spoken;
    }
  }

  /** In every run an event answers a turn exactly when it resumes the coroutine that closed its Cockpit
      session, other than by a cancellation, while the turn is tabled for the phone that is connected; the
      answer is the latest text of the turn and its first.  An event dispatches a turn exactly when it
      resumes, without an error, the coroutine that opened its Cockpit session, while the turn is also
      active and unfinished.  Nothing else leaves. */
  lemma {:induction false} LeavesExactlyWhen(events: seq<Event>, e: Event)
    ensures var s := Run(Initial(), events); var log := Next(s, e).log;
            && (forall o: Obj :: AnswersNow(s, e, o) ==>
                  && log == s.log + [Replied(o, s.tables.objs[o].text)]
                  && (forall i :: 0 <= i < |s.log| ==> s.log[i].Replied? ==> s.log[i].obj != o))
            && (forall o: Obj :: DispatchesNow(s, e, o) ==>
                  && log == s.log + [Dispatched(o)]
                  && (forall i :: 0 <= i < |s.log| ==> s.log[i].Dispatched? ==> s.log[i].obj != o))
            && ((forall o: Obj :: !AnswersNow(s, e, o) && !DispatchesNow(s, e, o)) ==> log == s.log)
  {
    var s := Run(Initial(), events);
    ReachableTasks(events);
    ReachableTables(events);
    hide Run, Next, TablesOk;
    if e.Resume? && e.k < |s.tasks| {
      assert forall i :: 0 <= i < |s.log| ==> !Outdated(s.tasks[e.k], s.log[i]);
      hide TasksOk, OnItsPhone;
      ResumeLeaves(s, e.k, e.result, e.routed);
    } else {
      hide TasksOk;
      OthersLeaveNothing(s, e);
    }
  }

  // ---------------------------------------------------------------- what the gateway may say

  /** Turn `o` is tabled and still open, and this is its event. */
  predicate Listens(t: Tables, event: EventId, o: Obj) {
    && o < |t.objs| && t.objs[o].id in t.turns && t.turns[t.objs[o].id] == o && !t.objs[o].finished
    && event == EventId(t.objs[o].generation, t.objs[o].id)
  }

  lemma RoutedExactlyWhen(t: Tables, event: EventId, o: Obj)
    requires TablesOk(t)
    ensures Routed(t, event) == Some(o) <==> Tabled(t, o) && EventOf(t.objs[o]) == event
  {
    if Tabled(t, o) { assert EntryOk(t, t.objs[o].id); }
    if Routed(t, event) == Some(o) { assert EntryOk(t, t.routes[event].turnId); }
  }

  /** The candidate speaks for `o`: it is the event of `o`, and no other generation is asked for. */
  predicate SpeaksFor(t: Tables, event: EventId, requested: Option<nat>, o: Obj) {
    Listens(t, event, o) && (requested == None || requested == Some(t.objs[o].generation))
  }

  lemma SpeakerExactlyWhen(t: Tables, event: EventId, requested: Option<nat>, o: Obj)
    requires TablesOk(t)
    ensures Speaker(t, event, requested) == Some(o) <==> SpeaksFor(t, event, requested, o)
  {
    RoutedExactlyWhen(t, event, o);
    hide TablesOk, Routed;
  }

  lemma {:induction false} ResolvedIsFirst(t: Tables, candidates: seq<EventId>, requested: Option<nat>, i: nat, o: Obj)
    requires TablesOk(t) && i < |candidates| && SpeaksFor(t, candidates[i], requested, o)
    requires forall j, p: Obj :: 0 <= j < i ==> !SpeaksFor(t, candidates[j], requested, p)
    ensures Resolved(t, candidates, requested) == Some(o)
  {
    hide TablesOk, SpeaksFor, Speaker;
    var first := Speaker(t, candidates[0], requested);
    if first.Some? { SpeakerExactlyWhen(t, candidates[0], requested, first.value); }
    if i == 0 {
      SpeakerExactlyWhen(t, candidates[0], requested, o);
    } else {
      assert candidates[1..][i - 1] == candidates[i];
      assert forall j :: 0 <= j < i - 1 ==> candidates[1..][j] == candidates[j + 1];
      ResolvedIsFirst(t, candidates[1..], requested, i - 1, o);
    }
  }

  lemma {:induction false} ResolvedIsNobody(t: Tables, candidates: seq<EventId>, requested: Option<nat>)
    requires TablesOk(t)
    requires forall j, p: Obj :: 0 <= j < |candidates| ==> !SpeaksFor(t, candidates[j], requested, p)
    ensures Resolved(t, candidates, requested) == None
  {
    hide TablesOk, SpeaksFor, Speaker;
    if candidates != [] {
      var first := Speaker(t, candidates[0], requested);
      if first.Some? { SpeakerExactlyWhen(t, candidates[0], requested, first.value); }
      assert forall j :: 0 <= j < |candidates| - 1 ==> candidates[1..][j] == candidates[j + 1];
      ResolvedIsNobody(t, candidates[1..], requested);
    }
  }

  /** In every run, while a phone is connected, what the gateway says becomes the text of the turn that
      the first fitting candidate speaks for, and of no other. */
  lemma {:induction false} FirstCandidateSpeaks(events: seq<Event>, candidates: seq<EventId>, requested: Option<nat>,
                                                text: string, i: nat, o: Obj)
    requires var t := Run(Initial(), events).tables;
             && t.phone.Some? && i < |candidates| && SpeaksFor(t, candidates[i], requested, o)
             && forall j, p: Obj :: 0 <= j < i ==> !SpeaksFor(t, candidates[j], requested, p)
    ensures var s := Run(Initial(), events); var t := s.tables;
            Next(s, Say(candidates, requested, text)) == s.(tables := t.(objs := t.objs[o := t.objs[o].(text := text)]))
  {
    ReachableTables(events);
    hide Run, TablesOk, SpeaksFor;
    ResolvedIsFirst(Run(Initial(), events).tables, candidates, requested, i, o);
  }

  /** What is said for no open turn, or without a phone, changes nothing. */
  lemma {:induction false} OthersAreNotHeard(events: seq<Event>, candidates: seq<EventId>, requested: Option<nat>, text: string)
    requires var t := Run(Initial(), events).tables;
             t.phone.None? || forall j, p: Obj :: 0 <= j < |candidates| ==> !SpeaksFor(t, candidates[j], requested, p)
    ensures var s := Run(Initial(), events); Next(s, Say(candidates, requested, text)) == s
  {
    ReachableTables(events);
    hide Run, TablesOk, SpeaksFor;
    var t := Run(Initial(), events).tables;
    if t.phone.Some? { ResolvedIsNobody(t, candidates, requested); }
  }

  // ---------------------------------------------------------------- completing a turn

  /** The table entries of object `o` are gone. */
  function Removed(t: Tables, turn: Turn): Tables {
    t.(turns := t.turns - {turn.id}, routes := t.routes - {EventId(turn.generation, turn.id)},
       active := if t.active == Some(turn.id) then None else t.active)
  }

  /** In every run a completion that names an open turn and its generation finishes that turn: its Cockpit
      session is closed first, and without its phone the turn is forgotten.  Any other completion changes
      no table. */
  lemma {:induction false} CompletionFinishes(events: seq<Event>, event: EventId, generation: nat)
    ensures var s := Run(Initial(), events); var t := s.tables; var s' := Next(s, Complete(event, generation));
            && (forall o: Obj :: Listens(t, event, o) && generation == event.generation ==>
                  var marked := t.(objs := t.objs[o := t.objs[o].(finished := true)]);
                  s' == if t.phone == Some(t.objs[o].phone)
                        then s.(tables := marked, tasks := s.tasks + [FinishCockpit(o, End)])
                        else s.(tables := Removed(marked, t.objs[o]), tasks := s.tasks + [Done]))
            && ((generation != event.generation || forall o: Obj :: !Listens(t, event, o)) ==> s'.tables == t && s'.log == s.log)
  {
    var s := Run(Initial(), events);
    var t := s.tables;
    ReachableTables(events);
    hide Run;
    var r := Routed(t, event);
    if r.Some? { RoutedExactlyWhen(t, event, r.value); }
    forall o: Obj | Listens(t, event, o) ensures r == Some(o) { RoutedExactlyWhen(t, event, o); }
    hide TablesOk, Routed;
  }

  // ---------------------------------------------------------------- a whole turn

  lemma RunIs(s: State, e: Event, s': State)
    requires Next(s, e) == s'
    ensures Run(s, [e]) == s'
  {
    hide Next;
    assert [e][..0] == [];
  }

  /** The same coroutine is resumed twice. */
  lemma ResumeTwice(s: State, e: Event, s1: State, s2: State)
    requires Next(s, e) == s1 && Next(s1, e) == s2
    ensures Run(s, [e, e]) == s2
  {
    hide Next, Run;
    RunIs(s, e, s1);
    RunIs(s1, e, s2);
    RunAppend(s, [e], [e]);
    assert [e, e] == [e] + [e];
  }

  /** The tables with one turn more, which is active. */
  function Added(t: Tables, turn: Turn): Tables {
    t.(objs := t.objs + [turn], turns := t.turns[turn.id := |t.objs|],
       routes := t.routes[EventId(turn.generation, turn.id) := Route(turn.id, turn.generation)],
       active := Some(turn.id), nextGeneration := t.nextGeneration + 1)
  }

  /** A call of the phone while no turn is active opens the Cockpit session of a new turn. */
  lemma TurnOpens(s: State, id: TurnId, binding: Binding)
    requires s.tables.phone.Some? && s.tables.active.None?
    ensures var t := s.tables; var turn := Turn(id, t.nextGeneration, t.phone.value, binding, false, "");
            Next(s, VoiceTurn(id, binding, true)) == s.(tables := Added(t, turn), tasks := s.tasks + [OpenCockpit(|t.objs|)])
  {
  }

  /** The turn that task `k` has opened is dispatched when nothing comes in between. */
  lemma TurnIsDispatched(s: State, k: nat, o: Obj, routed: bool)
    requires k < |s.tasks| && s.tasks[k] == OpenCockpit(o) && OnItsPhone(s.tables, o)
    requires s.tables.active == Some(s.tables.objs[o].id) && !s.tables.objs[o].finished
    ensures Run(s, [Resume(k, Ok, routed), Resume(k, Ok, routed)])
            == s.(tasks := s.tasks[k := Done], log := s.log + [Dispatched(o)])
  {
    hide Run;
    var e := Resume(k, Ok, routed);
    var s1 := s.(tasks := s.tasks[k := Dispatching(o)], log := s.log + [Dispatched(o)]);
    assert Next(s, e) == s1;
    var s2 := s.(tasks := s.tasks[k := Done], log := s.log + [Dispatched(o)]);
    assert Next(s1, e) == s2;
    hide Next;
    ResumeTwice(s, e, s1, s2);
  }

  /** What comes after the answer: nothing, or the turn that waited for it is opened. */
  function Opened(t: Tables, cont: Cont): Tables {
    match cont
    case End => t
    case StartTurn(id, phone, binding) =>
      if t.phone == Some(phone) then Added(t, Turn(id, t.nextGeneration, phone, binding, false, "")) else t
  }

  function OpeningTask(t: Tables, cont: Cont): Task {
    if cont.StartTurn? && t.phone == Some(cont.phone) then OpenCockpit(|t.objs|) else Done
  }

  /** The turn that task `k` has finished is answered and leaves the tables when nothing comes in between. */
  lemma TurnIsAnswered(s: State, k: nat, o: Obj, cont: Cont)
    requires k < |s.tasks| && s.tasks[k] == FinishCockpit(o, cont) && OnItsPhone(s.tables, o)
    ensures var t := Removed(s.tables, s.tables.objs[o]);
            Run(s, [Resume(k, Ok, true), Resume(k, Ok, true)])
            == State(Opened(t, cont), s.tasks[k := OpeningTask(t, cont)], s.log + [Replied(o, s.tables.objs[o].text)])
  {
    hide Run;
    var e := Resume(k, Ok, true);
    var t := Removed(s.tables, s.tables.objs[o]);
    var s1 := s.(tasks := s.tasks[k := FinishReply(o, cont)], log := s.log + [Replied(o, s.tables.objs[o].text)]);
    assert Next(s, e) == s1;
    var s2 := State(Opened(t, cont), s.tasks[k := OpeningTask(t, cont)], s1.log);
    assert Next(s1, e) == s2 by { ReplyGoesOn(s.tables, o, cont); hide Continue, Removed, Forget; }
    hide Next, Opened, Removed;
    ResumeTwice(s, e, s1, s2);
  }

  lemma ReplyGoesOn(t: Tables, o: Obj, cont: Cont)
    requires OnItsPhone(t, o)
    ensures var t' := Removed(t, t.objs[o]);
            && Forget(t, o) == t' && t'.objs == t.objs
            && Continue(t', cont, true) == Segment(Opened(t', cont), OpeningTask(t', cont), [])
  {
  }

  /** A call of the phone whose turn nobody disturbs is dispatched, hears what the gateway says, is
      completed and answered with it, and leaves the tables as they were but for the finished object. */
  lemma {:induction false} UndisturbedTurn(s: State, id: TurnId, binding: Binding, text: string)
    requires s.tables.phone.Some? && s.tables.active.None?
    ensures var t := s.tables; var k := |s.tasks|; var o := |t.objs|; var event := EventId(t.nextGeneration, id);
            Run(s, [VoiceTurn(id, binding, true)] + [Resume(k, Ok, true), Resume(k, Ok, true)]
                   + [Say([event], None, text)] + [Complete(event, t.nextGeneration)]
                   + [Resume(k + 1, Ok, true), Resume(k + 1, Ok, true)])
            == State(t.(objs := t.objs + [Turn(id, t.nextGeneration, t.phone.value, binding, true, text)],
                        turns := t.turns - {id}, routes := t.routes - {event}, nextGeneration := t.nextGeneration + 1),
                     s.tasks + [Done, Done], s.log + [Dispatched(o), Replied(o, text)])
  {
    hide Run, Next;
    var t, k, o := s.tables, |s.tasks|, |s.tables.objs|;
    var turn := Turn(id, t.nextGeneration, t.phone.value, binding, false, "");
    var event := EventId(t.nextGeneration, id);
    var first := [VoiceTurn(id, binding, true)];
    var dispatch, answer := [Resume(k, Ok, true), Resume(k, Ok, true)], [Resume(k + 1, Ok, true), Resume(k + 1, Ok, true)];
    var say, complete := [Say([event], None, text)], [Complete(event, t.nextGeneration)];
    var s1 := s.(tables := Added(t, turn), tasks := s.tasks + [OpenCockpit(o)]);
    TurnOpens(s, id, binding);
    RunIs(s, first[0], s1);
    TurnIsDispatched(s1, k, o, true);
    RunAppend(s, first, dispatch);
    var s2 := s1.(tasks := s.tasks + [Done], log := s.log + [Dispatched(o)]);
    assert s1.tasks[k := Done] == s2.tasks;
    assert Run(s, first + dispatch) == s2;
    var s3 := s2.(tables := Added(t, turn.(text := text)));
    TurnHears(s2, t, turn, text);
    RunIs(s2, say[0], s3);
    RunAppend(s, first + dispatch, say);
    var done := turn.(text := text, finished := true);
    var s4 := s3.(tables := Added(t, done), tasks := s3.tasks + [FinishCockpit(o, End)]);
    TurnCompletes(s3, t, turn.(text := text));
    RunIs(s3, complete[0], s4);
    RunAppend(s, first + dispatch + say, complete);
    TurnIsAnswered(s4, k + 1, o, End);
    RunAppend(s, first + dispatch + say + complete, answer);
    assert Removed(Added(t, done), done).turns == t.turns - {id};
    assert Removed(Added(t, done), done).routes == t.routes - {event};
    assert s4.tasks[k + 1 := Done] == s.tasks + [Done, Done];
    assert s4.log + [Replied(o, text)] == s.log + [Dispatched(o), Replied(o, text)];
  }

  /** The only open turn hears what is said for its event. */
  lemma TurnHears(s: State, t: Tables, turn: Turn, text: string)
    requires s.tables == Added(t, turn) && !turn.finished && t.phone.Some?
    ensures Next(s, Say([EventOf(turn)], None, text)) == s.(tables := Added(t, turn.(text := text)))
  {
    var o := |t.objs|;
    assert Routed(s.tables, EventOf(turn)) == Some(o);
    assert Resolved(s.tables, [EventOf(turn)], None) == Some(o) by { hide Routed; }
    assert s.tables.objs[o := turn.(text := text)] == t.objs + [turn.(text := text)];
  }

  lemma TurnCompletes(s: State, t: Tables, turn: Turn)
    requires s.tables == Added(t, turn) && !turn.finished && t.phone == Some(turn.phone)
    ensures Next(s, Complete(EventOf(turn), turn.generation))
            == s.(tables := Added(t, turn.(finished := true)), tasks := s.tasks + [FinishCockpit(|t.objs|, End)])
  {
    var o := |t.objs|;
    assert Routed(s.tables, EventOf(turn)) == Some(o);
    assert s.tables.objs[o := turn.(finished := true)] == t.objs + [turn.(finished := true)];
  }

  // ---------------------------------------------------------------- turns that are cut short

  /** The turn that holds the active place can still be answered. */
  predicate Busy(t: Tables, p: Obj) {
    OnItsPhone(t, p) && t.active == Some(t.objs[p].id) && !t.objs[p].finished
  }

  lemma CancelFinishes(s: State, k: nat, p: Obj, cont: Cont)
    requires k < |s.tasks| && s.tasks[k] == Cancelling(p, true, cont) && Busy(s.tables, p)
    ensures Run(s, [Resume(k, Ok, true)])
            == s.(tables := s.tables.(objs := s.tables.objs[p := s.tables.objs[p].(finished := true)]),
                  tasks := s.tasks[k := FinishCockpit(p, cont)])
  {
    var e := Resume(k, Ok, true);
    var s' := s.(tables := s.tables.(objs := s.tables.objs[p := s.tables.objs[p].(finished := true)]),
                 tasks := s.tasks[k := FinishCockpit(p, cont)]);
    assert Next(s, e) == s';
    hide Next, Run;
    RunIs(s, e, s');
  }

  /** A turn whose task stands before its cancellation is answered with what it heard so far, and what
      waited behind it goes on. */
  lemma CancelledIsAnswered(s: State, k: nat, p: Obj, cont: Cont)
    requires k < |s.tasks| && s.tasks[k] == Cancelling(p, true, cont) && Busy(s.tables, p)
    ensures var turn := s.tables.objs[p].(finished := true);
            var t := Removed(s.tables.(objs := s.tables.objs[p := turn]), turn);
            Run(s, [Resume(k, Ok, true)] + [Resume(k, Ok, true), Resume(k, Ok, true)])
            == State(Opened(t, cont), s.tasks[k := OpeningTask(t, cont)], s.log + [Replied(p, turn.text)])
  {
    hide Run, Opened, OpeningTask;
    CancelFinishes(s, k, p, cont);
    var s1 := Run(s, [Resume(k, Ok, true)]);
    TurnIsAnswered(s1, k, p, cont);
    RunAppend(s, [Resume(k, Ok, true)], [Resume(k, Ok, true), Resume(k, Ok, true)]);
    assert s1.tasks[k := OpeningTask(Removed(s1.tables, s1.tables.objs[p]), cont)]
           == s.tasks[k := OpeningTask(Removed(s1.tables, s1.tables.objs[p]), cont)];
  }

  /** A call of the phone while turn `p` is active first finishes and answers `p`, with what it heard so
      far, and then opens and dispatches the new turn. */
  lemma {:induction false} NewTurnSupersedes(s: State, p: Obj, id: TurnId, binding: Binding)
    requires Busy(s.tables, p)
    ensures var t := s.tables; var turn := t.objs[p].(finished := true); var k := |s.tasks|;
            var rest := Removed(t.(objs := t.objs[p := turn]), turn);
            Run(s, [VoiceTurn(id, binding, true)] + ([Resume(k, Ok, true)] + [Resume(k, Ok, true), Resume(k, Ok, true)])
                   + [Resume(k, Ok, true), Resume(k, Ok, true)])
            == State(Added(rest, Turn(id, t.nextGeneration, t.phone.value, binding, false, "")),
                     s.tasks + [Done], s.log + [Replied(p, turn.text), Dispatched(|t.objs|)])
  {
    hide Run, Next;
    var k, t := |s.tasks|, s.tables;
    var cont := StartTurn(id, t.phone.value, binding);
    var e := VoiceTurn(id, binding, true);
    var cancel, dispatch := [Resume(k, Ok, true)] + [Resume(k, Ok, true), Resume(k, Ok, true)], [Resume(k, Ok, true), Resume(k, Ok, true)];
    var s1 := s.(tasks := s.tasks + [Cancelling(p, true, cont)]);
    VoiceCancels(s, p, id, binding);
    RunIs(s, e, s1);
    CancelledIsAnswered(s1, k, p, cont);
    RunAppend(s, [e], cancel);
    var s2 := Run(s, [e] + cancel);
    assert s1.tasks[k := OpenCockpit(|t.objs|)] == s.tasks + [OpenCockpit(|t.objs|)];
    TurnIsDispatched(s2, k, |t.objs|, true);
    RunAppend(s, [e] + cancel, dispatch);
    assert (s.tasks + [OpenCockpit(|t.objs|)])[k := Done] == s.tasks + [Done];
  }

  lemma VoiceCancels(s: State, p: Obj, id: TurnId, binding: Binding)
    requires Busy(s.tables, p)
    ensures Next(s, VoiceTurn(id, binding, true))
            == s.(tasks := s.tasks + [Cancelling(p, true, StartTurn(id, s.tables.phone.value, binding))])
  {
  }

  /** A cancellation of the host for the call of turn `p` finishes and answers `p`; one for any other call
      changes nothing. */
  lemma {:induction false} HostCancels(s: State, p: Obj, binding: Binding)
    requires Busy(s.tables, p)
    ensures var t := s.tables; var turn := t.objs[p].(finished := true); var k := |s.tasks|;
            && (binding == t.objs[p].binding ==>
                  Run(s, [HostCancel(binding)] + ([Resume(k, Ok, true)] + [Resume(k, Ok, true), Resume(k, Ok, true)]))
                  == State(Removed(t.(objs := t.objs[p := turn]), turn), s.tasks + [Done], s.log + [Replied(p, turn.text)]))
            && (binding != t.objs[p].binding ==> Next(s, HostCancel(binding)) == s)
  {
    hide Run;
    if binding == s.tables.objs[p].binding {
      var k := |s.tasks|;
      var s1 := s.(tasks := s.tasks + [Cancelling(p, true, End)]);
      var cancel := [Resume(k, Ok, true)] + [Resume(k, Ok, true), Resume(k, Ok, true)];
      assert Next(s, HostCancel(binding)) == s1;
      hide Next;
      RunIs(s, HostCancel(binding), s1);
      CancelledIsAnswered(s1, k, p, End);
      RunAppend(s, [HostCancel(binding)], cancel);
      assert s1.tasks[k := Done] == s.tasks + [Done];
    }
  }

  /** When the phone goes, its turn is forgotten without an answer. */
  lemma {:induction false} DropForgets(s: State, p: Obj)
    requires Busy(s.tables, p)
    ensures var t := s.tables; var k := |s.tasks|;
            Run(s, [Drop] + [Resume(k, Ok, true), Resume(k, Ok, true)])
            == State(Removed(t.(phone := None), t.objs[p]), s.tasks + [Done], s.log)
  {
    hide Run;
    var t, k := s.tables, |s.tasks|;
    var e := Resume(k, Ok, true);
    var s1 := s.(tables := t.(phone := None), tasks := s.tasks + [Dropping]);
    assert Next(s, Drop) == s1;
    var s2 := s1.(tasks := s.tasks + [Cancelling(p, false, End)]);
    assert s1.tasks[k := Cancelling(p, false, End)] == s2.tasks;
    assert Next(s1, e) == s2;
    var s3 := State(Removed(t.(phone := None), t.objs[p]), s.tasks + [Done], s.log);
    assert s2.tasks[k := Done] == s3.tasks;
    assert Next(s2, e) == s3;
    hide Next;
    RunIs(s, Drop, s1);
    ResumeTwice(s1, e, s2, s3);
    RunAppend(s, [Drop], [e, e]);
  }

  /** A turn whose start fails, before its dispatch or after it, has its Cockpit session cancelled and
      discarded and is forgotten; nothing more leaves for it. */
  lemma {:induction false} FailedStartIsAborted(s: State, k: nat, p: Obj)
    requires k < |s.tasks| && (s.tasks[k] == OpenCockpit(p) || s.tasks[k] == Dispatching(p)) && Busy(s.tables, p)
    ensures Run(s, [Resume(k, Failed, true)] + [Resume(k, Ok, true), Resume(k, Ok, true)])
            == State(Removed(s.tables, s.tables.objs[p]), s.tasks[k := Done], s.log)
  {
    hide Run;
    var e := Resume(k, Ok, true);
    var s1 := s.(tasks := s.tasks[k := AbortCancel(p)]);
    assert Next(s, Resume(k, Failed, true)) == s1;
    var s2 := s.(tasks := s.tasks[k := AbortDiscard(p)]);
    assert Next(s1, e) == s2;
    var s3 := State(Removed(s.tables, s.tables.objs[p]), s.tasks[k := Done], s.log);
    assert Next(s2, e) == s3;
    hide Next;
    RunIs(s, Resume(k, Failed, true), s1);
    ResumeTwice(s1, e, s2, s3);
    RunAppend(s, [Resume(k, Failed, true)], [e, e]);
  }

  /** The coroutine of a turn that ends forgets the turn, unless the turn goes on with the gateway, the
      coroutine itself was cancelled or failed before it had done anything, or another one finishes the turn. */
  lemma {:induction false} EndedIsForgotten(s: State, k: nat, r: Result, routed: bool, o: Obj)
    requires k < |s.tasks| && HasObj(s.tasks[k]) && s.tasks[k].obj == o && o < |s.tables.objs|
    requires var task := Next(s, Resume(k, r, routed)).tasks[k]; HasObj(task) ==> task.obj != o
    ensures var task := s.tasks[k]; var t := s.tables; var t' := Next(s, Resume(k, r, routed)).tables;
            || !(t.objs[o].id in t'.turns && t'.turns[t.objs[o].id] == o)
            || (task.Dispatching? && r.Ok? && Busy(t, o))
            || (task.Cancelling? && (!r.Ok? || t.objs[o].finished))
            || ((task.AbortCancel? || task.AbortDiscard?) && r.Cancelled?)
  {
    var t, task := s.tables, s.tasks[k];
    if task.Cancelling? && !t.objs[o].finished { FinishEnds(t, o, task.cont, routed); }
    ForgetEnds(t, o, ContOf(task), routed);
    hide Continue, Forget, BeginFinish, BeginCancel;
  }

  lemma ForgetEnds(t: Tables, o: Obj, cont: Cont, routed: bool)
    requires o < |t.objs|
    ensures var t' := Forget(t, o); !(t.objs[o].id in t'.turns && t'.turns[t.objs[o].id] == o)
    ensures var t' := Continue(Forget(t, o), cont, routed).tables; !(t.objs[o].id in t'.turns && t'.turns[t.objs[o].id] == o)
  {
  }

  lemma FinishEnds(t: Tables, o: Obj, cont: Cont, routed: bool)
    requires o < |t.objs| && !t.objs[o].finished
    ensures var seg := BeginFinish(t, o, cont, routed);
            seg.task == FinishCockpit(o, cont) || !(t.objs[o].id in seg.tables.turns && seg.tables.turns[t.objs[o].id] == o)
  {
    if Tabled(t, o) { ForgetEnds(MarkFinished(t, o), o, cont, routed); }
    hide Forget;
  }

  // ---------------------------------------------------------------- the turn that waits

  /** The coroutine is done with turn `o` and the turn that waits behind it may start: `o` was cancelled, and
      needs no answer or has got it.  An error or a cancellation drops the turn that waits, except an error
      of the Cockpit session, which only costs its display. */
  predicate LetsGo(t: Tables, task: Task, r: Result) {
    match task
    case Cancelling(o, sendDone, _) => r == Ok && (sendDone ==> !OnItsPhone(t, o) || t.objs[o].finished)
    case FinishCockpit(o, _) => r != Cancelled && !OnItsPhone(t, o)
    case FinishReply(_, _) => r == Ok
    case _ => false
  }

  /** The turn that waits is a new active object, or none is made. */
  predicate Starts(t: Tables, seg: Segment, w: Cont, goes: bool, routed: bool)
    requires w.StartTurn?
  {
    var o := |t.objs|;
    && seg.tables.nextGeneration == t.nextGeneration + (if goes && t.phone == Some(w.phone) then 1 else 0)
    && if goes && routed && t.phone == Some(w.phone) then
      && seg.task == OpenCockpit(o) && |seg.tables.objs| == o + 1
      && seg.tables.objs[o] == Turn(w.id, t.nextGeneration, w.phone, w.binding, false, "")
      && seg.tables.active == Some(w.id) && w.id in seg.tables.turns && seg.tables.turns[w.id] == o
    else |seg.tables.objs| == o && !seg.task.OpenCockpit?
  }

  lemma ContinueStarts(t: Tables, t1: Tables, w: Cont, routed: bool)
    requires w.StartTurn? && |t1.objs| == |t.objs| && t1.phone == t.phone && t1.nextGeneration == t.nextGeneration
    ensures Starts(t, Continue(t1, w, routed), w, true, routed)
  {
  }

  lemma ForgetIsLocal(t: Tables, o: Obj)
    ensures var t' := Forget(t, o); t'.objs == t.objs && t'.phone == t.phone && t'.nextGeneration == t.nextGeneration
  {
    hide Tabled;
  }

  lemma FinishStarts(t: Tables, o: Obj, w: Cont, routed: bool)
    requires w.StartTurn? && o < |t.objs|
    ensures Starts(t, BeginFinish(t, o, w, routed), w, !OnItsPhone(t, o) || t.objs[o].finished, routed)
  {
    var marked := MarkFinished(t, o);
    ForgetIsLocal(marked, o);
    ContinueStarts(t, t, w, routed);
    ContinueStarts(t, Forget(marked, o), w, routed);
    assert Owns(marked, o, false, false) <==> OnItsPhone(t, o);
    hide Continue, Forget;
  }

  lemma StepStarts(t: Tables, task: Task, r: Result, routed: bool)
    requires ContOf(task).StartTurn? && task.obj < |t.objs|
    ensures Starts(t, Step(t, task, r, routed), ContOf(task), LetsGo(t, task, r), routed)
  {
    var o, w := task.obj, ContOf(task);
    ForgetIsLocal(t, o);
    ContinueStarts(t, Forget(t, o), w, routed);
    assert Owns(t, o, false, false) <==> OnItsPhone(t, o);
    hide Continue, Forget, Owns, OnItsPhone, BeginFinish;
    if task.Cancelling? { FinishStarts(t, o, w, routed); }
  }

  /** In every run the turn that waits behind another one is opened exactly when it is let go and its phone
      is still the one that is connected; then it is a new active object.  When its route cannot be made it
      only takes a generation. */
  lemma {:induction false} WaitingTurnStarts(events: seq<Event>, k: nat, r: Result, routed: bool)
    requires var s := Run(Initial(), events); k < |s.tasks| && ContOf(s.tasks[k]).StartTurn?
    ensures var s := Run(Initial(), events); var t := s.tables; var s' := Next(s, Resume(k, r, routed)); var t' := s'.tables;
            var w := ContOf(s.tasks[k]); var o := |t.objs|;
            && t'.nextGeneration == t.nextGeneration + (if LetsGo(t, s.tasks[k], r) && t.phone == Some(w.phone) then 1 else 0)
            && if LetsGo(t, s.tasks[k], r) && routed && t.phone == Some(w.phone) then
              && s'.tasks[k] == OpenCockpit(o) && |t'.objs| == o + 1
              && t'.objs[o] == Turn(w.id, t.nextGeneration, w.phone, w.binding, false, "")
              && t'.active == Some(w.id) && w.id in t'.turns && t'.turns[w.id] == o
            else |t'.objs| == o && !s'.tasks[k].OpenCockpit?
  {
    var s := Run(Initial(), events);
    ReachableTasks(events);
    hide Run, LetsGo, Step;
    assert TaskOk(s, s.tasks[k]);
    hide TasksOk;
    StepStarts(s.tables, s.tasks[k], r, routed);
  }

  /** A start that fails while its turn is active on its phone, finished or not, first has the session of the
      gateway cancelled and then the Cockpit session discarded; in the end, or as soon as the turn has lost
      that place, it is forgotten.  Only a cancelled clean-up leaves it behind. */
  lemma {:induction false} AbortsInOrder(s: State, k: nat, r: Result, routed: bool, o: Obj)
    requires k < |s.tasks| && o < |s.tables.objs|
    requires s.tasks[k] == AbortCancel(o) || s.tasks[k] == AbortDiscard(o)
             || (r != Ok && (s.tasks[k] == OpenCockpit(o) || s.tasks[k] == Dispatching(o)))
    ensures var t := s.tables; var task := s.tasks[k]; var s' := Next(s, Resume(k, r, routed));
            var active := OnItsPhone(t, o) && t.active == Some(t.objs[o].id);
            && s'.log == s.log
            && if (task.AbortCancel? || task.AbortDiscard?) && r == Cancelled then s' == s.(tasks := s.tasks[k := Done])
               else if active && !task.AbortDiscard? then
                 s' == s.(tasks := s.tasks[k := if task.AbortCancel? then AbortDiscard(o) else AbortCancel(o)])
               else
                 && s'.tasks == s.tasks[k := Done]
                 && s'.tables == if t.objs[o].id in t.turns && t.turns[t.objs[o].id] == o then Removed(t, t.objs[o]) else t
  {
    hide Run, BeginFinish, BeginCancel, Continue;
    assert Owns(s.tables, o, true, false) <==> OnItsPhone(s.tables, o) && s.tables.active == Some(s.tables.objs[o].id);
    assert Forget(s.tables, o) == if Tabled(s.tables, o) then Removed(s.tables, s.tables.objs[o]) else s.tables;
    hide Owns, Removed, Forget, OnItsPhone;
  }

  /** A call of the phone whose route cannot be made only takes a generation. */
  lemma UnroutedTurnIsRefused(s: State, id: TurnId, binding: Binding)
    requires s.tables.phone.Some? && s.tables.active.None?
    ensures Next(s, VoiceTurn(id, binding, false))
            == s.(tables := s.tables.(nextGeneration := s.tables.nextGeneration + 1), tasks := s.tasks + [Done])
  {
  }

  /** In every run, after a phone has gone and its connection was closed without an error, the active turn
      is cancelled without an answer; there is nothing to do when none is active. */
  lemma {:induction false} GonePhoneCancels(events: seq<Event>, k: nat, r: Result, routed: bool)
    requires var s := Run(Initial(), events); k < |s.tasks| && s.tasks[k] == Dropping
    ensures var s := Run(Initial(), events); var t := s.tables;
            Next(s, Resume(k, r, routed))
            == s.(tasks := s.tasks[k := if r == Ok && t.active.Some? && t.active.value in t.turns
                                        then Cancelling(t.turns[t.active.value], false, End) else Done])
  {
    ReachableTables(events);
    hide Run;
  }
}
