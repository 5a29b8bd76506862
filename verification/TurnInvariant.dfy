/** What every step of the turn tables keeps, whatever runs in between. */
module TurnInvariant {
  import opened Options
  import opened TurnProtocol

  // ---------------------------------------------------------------- the tables

  /** Each tabled turn is an object of its own id whose event routes to its id and generation. */
  predicate EntryOk(t: Tables, id: TurnId)
    requires id in t.turns
  {
    var o := t.turns[id];
    && o < |t.objs| && t.objs[o].id == id
    && EventOf(t.objs[o]) in t.routes && t.routes[EventOf(t.objs[o])] == Route(id, t.objs[o].generation)
  }

  predicate TablesOk(t: Tables) {
    && (forall id :: id in t.turns ==> EntryOk(t, id))
    && (t.active.Some? ==> t.active.value in t.turns)
    && (forall o :: 0 <= o < |t.objs| ==> t.objs[o].generation < t.nextGeneration)
    && (forall o, p :: 0 <= o < p < |t.objs| ==> t.objs[o].generation < t.objs[p].generation)
    && (forall e :: e in t.routes ==> t.routes[e] == Route(e.turnId, e.generation))
    && (t.phone.Some? ==> t.phone.value < t.nextPhone)
  }

  /** An object that still holds the authority of a turn. */
  predicate Live(t: Tables, o: Obj) {
    Tabled(t, o) && t.active == Some(t.objs[o].id) && !t.objs[o].finished
  }

  /** Objects keep their identity, and one that existed before can only lose its place. */
  predicate Declines(t: Tables, t': Tables) {
    && |t.objs| <= |t'.objs| && t.nextGeneration <= t'.nextGeneration && t.nextPhone <= t'.nextPhone
    && forall o :: 0 <= o < |t.objs| ==>
         && t'.objs[o] == t.objs[o].(finished := t'.objs[o].finished, text := t'.objs[o].text)
         && (t.objs[o].finished ==> t'.objs[o].finished)
         && (Tabled(t', o) ==> Tabled(t, o))
         && (Live(t', o) ==> Live(t, o))
  }

  /** Objects made later have later generations. */
  predicate MakesFresh(t: Tables, t': Tables) {
    forall o :: |t.objs| <= o < |t'.objs| ==> t'.objs[o].generation >= t.nextGeneration
  }

  lemma MakesFreshTwice(t: Tables, t1: Tables, t2: Tables)
    requires Declines(t, t1) && Declines(t1, t2) && MakesFresh(t, t1) && MakesFresh(t1, t2)
    ensures MakesFresh(t, t2)
  {
    hide Tabled, Live;
    forall o | |t.objs| <= o < |t2.objs| ensures t2.objs[o].generation >= t.nextGeneration {
      if o < |t1.objs| { assert t2.objs[o] == t1.objs[o].(finished := t2.objs[o].finished, text := t2.objs[o].text); }
    }
  }

  lemma DeclinesTwice(t: Tables, t1: Tables, t2: Tables)
    requires Declines(t, t1) && Declines(t1, t2)
    ensures Declines(t, t2)
  {
    hide Tabled, Live;
    forall o | 0 <= o < |t.objs|
      ensures t2.objs[o] == t.objs[o].(finished := t2.objs[o].finished, text := t2.objs[o].text)
    {
      assert t1.objs[o] == t.objs[o].(finished := t1.objs[o].finished, text := t1.objs[o].text);
    }
  }

  lemma ForgetOk(t: Tables, o: Obj)
    requires TablesOk(t)
    ensures TablesOk(Forget(t, o)) && Declines(t, Forget(t, o))
  {
    var t' := Forget(t, o);
    if Tabled(t, o) {
      forall id | id in t'.turns ensures EntryOk(t', id) {
        assert EntryOk(t, id);
      }
    }
  }

  lemma MarkOk(t: Tables, o: Obj)
    requires TablesOk(t) && o < |t.objs|
    ensures TablesOk(MarkFinished(t, o)) && Declines(t, MarkFinished(t, o))
  {
    var t' := MarkFinished(t, o);
    forall id | id in t'.turns ensures EntryOk(t', id) {
      assert EntryOk(t, id);
    }
  }

  lemma InsertOk(t: Tables, id: TurnId, phone: PhoneId, binding: Binding)
    requires TablesOk(t)
    ensures TablesOk(Insert(t, id, phone, binding)) && Declines(t, Insert(t, id, phone, binding))
    ensures Live(Insert(t, id, phone, binding), |t.objs|)
  {
    InsertDeclines(t, id, phone, binding);
    var t' := Insert(t, id, phone, binding);
    hide Declines;
    forall i | i in t'.turns ensures EntryOk(t', i) {
      if i != id { assert EntryOk(t, i); }
    }
  }

  lemma InsertDeclines(t: Tables, id: TurnId, phone: PhoneId, binding: Binding)
    ensures Declines(t, Insert(t, id, phone, binding))
  {
  }

  lemma CreateOk(t: Tables, id: TurnId, phone: PhoneId, binding: Binding, routed: bool)
    requires TablesOk(t)
    ensures TablesOk(Create(t, id, phone, binding, routed).tables)
    ensures Declines(t, Create(t, id, phone, binding, routed).tables)
  {
    InsertOk(t, id, phone, binding);
    hide Insert, EntryOk;
  }

  lemma ContinueOk(t: Tables, cont: Cont, routed: bool)
    requires TablesOk(t)
    ensures TablesOk(Continue(t, cont, routed).tables) && Declines(t, Continue(t, cont, routed).tables)
  {
    if cont.StartTurn? { CreateOk(t, cont.id, cont.phone, cont.binding, routed); }
    hide Create, EntryOk;
  }

  /** Forgetting an object and going on. */
  lemma ForgetContinueOk(t: Tables, o: Obj, cont: Cont, routed: bool)
    requires TablesOk(t)
    ensures TablesOk(Continue(Forget(t, o), cont, routed).tables)
    ensures Declines(t, Continue(Forget(t, o), cont, routed).tables)
  {
    ForgetOk(t, o);
    ContinueOk(Forget(t, o), cont, routed);
    DeclinesTwice(t, Forget(t, o), Continue(Forget(t, o), cont, routed).tables);
  }

  lemma BeginFinishOk(t: Tables, o: Obj, cont: Cont, routed: bool)
    requires TablesOk(t)
    ensures TablesOk(BeginFinish(t, o, cont, routed).tables) && Declines(t, BeginFinish(t, o, cont, routed).tables)
  {
    if !Tabled(t, o) || t.objs[o].finished {
      ContinueOk(t, cont, routed);
    } else {
      var marked := MarkFinished(t, o);
      MarkOk(t, o);
      hide TablesOk, Declines, Continue, MarkFinished;
      if !Owns(marked, o, false, false) {
        ForgetContinueOk(marked, o, cont, routed);
        DeclinesTwice(t, marked, Continue(Forget(marked, o), cont, routed).tables);
      }
    }
  }

  lemma BeginCancelOk(t: Tables, sendDone: bool, cont: Cont, routed: bool)
    requires TablesOk(t)
    ensures TablesOk(BeginCancel(t, sendDone, cont, routed).tables)
    ensures Declines(t, BeginCancel(t, sendDone, cont, routed).tables)
  {
    ContinueOk(t, cont, routed);
    hide Continue, EntryOk;
  }

  lemma SameTables(t: Tables)
    ensures Declines(t, t)
  {
  }

  lemma StepOk(t: Tables, task: Task, r: Result, routed: bool)
    requires TablesOk(t)
    ensures TablesOk(Step(t, task, r, routed).tables) && Declines(t, Step(t, task, r, routed).tables)
  {
    SameTables(t);
    hide TablesOk, Declines, BeginCancel, BeginFinish, Continue, Forget, Owns;
    match task
    case Done =>
    case Dropping => BeginCancelOk(t, false, End, routed);
    case Cancelling(o, _, cont) => BeginFinishOk(t, o, cont, routed); ForgetContinueOk(t, o, cont, routed);
    case FinishCockpit(o, cont) => ForgetOk(t, o); ForgetContinueOk(t, o, cont, routed);
    case FinishReply(o, cont) => ForgetOk(t, o); ForgetContinueOk(t, o, cont, routed);
    case OpenCockpit(o) => ForgetOk(t, o);
    case Dispatching(o) => ForgetOk(t, o);
    case AbortCancel(o) => ForgetOk(t, o);
    case AbortDiscard(o) => ForgetOk(t, o);
  }

  lemma SpokenOk(t: Tables, candidates: seq<EventId>, requested: Option<nat>, text: string)
    requires TablesOk(t)
    ensures TablesOk(Spoken(t, candidates, requested, text)) && Declines(t, Spoken(t, candidates, requested, text))
  {
    SpokenDeclines(t, candidates, requested, text);
    var t' := Spoken(t, candidates, requested, text);
    hide Resolved, Declines;
    forall id | id in t'.turns ensures EntryOk(t', id) {
      assert EntryOk(t, id);
    }
  }

  lemma SpokenDeclines(t: Tables, candidates: seq<EventId>, requested: Option<nat>, text: string)
    ensures Declines(t, Spoken(t, candidates, requested, text))
  {
    hide Resolved;
  }

  lemma NextTablesOk(s: State, e: Event)
    requires TablesOk(s.tables)
    ensures TablesOk(Next(s, e).tables) && Declines(s.tables, Next(s, e).tables)
  {
    hide TablesOk, Declines, BeginCancel, BeginFinish, Create, Spoken, Step, Routed;
    var t := s.tables;
    SameTables(t);
    match e
    case Attach => PhoneOk(t, Next(s, e).tables);
    case Drop => PhoneOk(t, Next(s, e).tables);
    case VoiceTurn(id, binding, routed) =>
      if t.phone.Some? {
        BeginCancelOk(t, true, StartTurn(id, t.phone.value, binding), routed);
        CreateOk(t, id, t.phone.value, binding, routed);
      }
    case HostCancel(_) => BeginCancelOk(t, true, End, true);
    case Complete(event, _) =>
      if Routed(t, event).Some? { BeginFinishOk(t, Routed(t, event).value, End, true); }
    case Say(candidates, requested, text) => SpokenOk(t, candidates, requested, text);
    case Resume(k, r, routed) =>
      if k < |s.tasks| { StepOk(t, s.tasks[k], r, routed); }
  }

  /** A phone comes or goes. */
  lemma PhoneOk(t: Tables, t': Tables)
    requires TablesOk(t) && t' == t.(phone := t'.phone, nextPhone := t'.nextPhone) && t.nextPhone <= t'.nextPhone
    requires t'.phone.Some? ==> t'.phone.value < t'.nextPhone
    ensures TablesOk(t') && Declines(t, t')
  {
    assert forall id :: id in t.turns ==> EntryOk(t, id) ==> EntryOk(t', id);
  }

  // ---------------------------------------------------------------- new objects

  lemma ContinueMakesFresh(t: Tables, t1: Tables, cont: Cont, routed: bool)
    requires |t1.objs| == |t.objs| && t1.nextGeneration == t.nextGeneration
    ensures MakesFresh(t, Continue(t1, cont, routed).tables)
  {
  }

  lemma ForgetMakesNothing(t: Tables, o: Obj)
    ensures |Forget(t, o).objs| == |t.objs| && Forget(t, o).nextGeneration == t.nextGeneration
  {
    hide Tabled;
  }

  lemma BeginFinishMakesFresh(t: Tables, o: Obj, cont: Cont, routed: bool)
    ensures MakesFresh(t, BeginFinish(t, o, cont, routed).tables)
  {
    ContinueMakesFresh(t, t, cont, routed);
    if o < |t.objs| {
      var marked := MarkFinished(t, o);
      ForgetMakesNothing(marked, o);
      ContinueMakesFresh(t, Forget(marked, o), cont, routed);
      hide Forget, Continue, Owns;
    }
  }

  lemma BeginCancelMakesFresh(t: Tables, sendDone: bool, cont: Cont, routed: bool)
    ensures MakesFresh(t, BeginCancel(t, sendDone, cont, routed).tables)
  {
    ContinueMakesFresh(t, t, cont, routed);
    ContinueMakesFresh(t, t.(active := None), cont, routed);
    hide Continue;
  }

  lemma StepMakesFresh(t: Tables, task: Task, r: Result, routed: bool)
    ensures MakesFresh(t, Step(t, task, r, routed).tables)
  {
    SameMakesFresh(t);
    BeginCancelMakesFresh(t, false, End, routed);
    if !task.Done? && !task.Dropping? {
      ForgetMakesNothing(t, task.obj);
      var cont := if task.Cancelling? || task.FinishCockpit? || task.FinishReply? then task.cont else End;
      ContinueMakesFresh(t, Forget(t, task.obj), cont, routed);
      BeginFinishMakesFresh(t, task.obj, cont, routed);
      ContinueMakesFresh(t, Forget(t, task.obj), End, routed);
    }
    hide MakesFresh, BeginCancel, BeginFinish, Forget, Owns;
  }

  lemma SameMakesFresh(t: Tables)
    ensures MakesFresh(t, t)
  {
  }

  /** One event makes at most one object, of the generation that was next. */
  lemma NextMakesFresh(s: State, e: Event)
    ensures MakesFresh(s.tables, Next(s, e).tables)
  {
    var t := s.tables;
    match e
    case Attach =>
    case Drop =>
    case VoiceTurn(id, binding, routed) =>
      if t.phone.Some? {
        var cont := StartTurn(id, t.phone.value, binding);
        BeginCancelMakesFresh(t, true, cont, routed);
        ContinueMakesFresh(t, t, cont, routed);
        hide MakesFresh, BeginCancel, Create;
      } else { SameMakesFresh(t); }
    case HostCancel(_) => BeginCancelMakesFresh(t, true, End, true); SameMakesFresh(t); hide MakesFresh, BeginCancel;
    case Complete(event, _) =>
      if Routed(t, event).Some? { BeginFinishMakesFresh(t, Routed(t, event).value, End, true); }
      SameMakesFresh(t);
      hide MakesFresh, BeginFinish, Routed;
    case Say(candidates, requested, text) => hide Resolved;
    case Resume(k, r, routed) =>
      if k < |s.tasks| { StepMakesFresh(t, s.tasks[k], r, routed); }
      SameMakesFresh(t);
      hide MakesFresh, Step;
  }

  lemma {:induction false} RunTablesOk(s: State, events: seq<Event>)
    requires TablesOk(s.tables)
    ensures TablesOk(Run(s, events).tables) && Declines(s.tables, Run(s, events).tables)
    ensures MakesFresh(s.tables, Run(s, events).tables)
    decreases |events|
  {
    hide TablesOk, Next;
    if events == [] {
      SameTables(s.tables);
    } else {
      var before := Run(s, events[..|events| - 1]);
      RunTablesOk(s, events[..|events| - 1]);
      hide Declines, MakesFresh;
      NextTablesOk(before, events[|events| - 1]);
      NextMakesFresh(before, events[|events| - 1]);
      DeclinesTwice(s.tables, before.tables, Run(s, events).tables);
      MakesFreshTwice(s.tables, before.tables, Run(s, events).tables);
    }
  }
}
