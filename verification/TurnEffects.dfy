/** What a suspended start or finish may still do, and how often a turn is dispatched and answered. */
module TurnEffects {
  import opened Options
  import opened TurnProtocol
  import opened TurnInvariant
  import opened TurnSafety

  predicate Finishing(task: Task) { task.FinishCockpit? || task.FinishReply? }

  predicate Starting(task: Task) {
    task.OpenCockpit? || task.Dispatching? || task.AbortCancel? || task.AbortDiscard?
  }

  predicate HasObj(task: Task) { !task.Done? && !task.Dropping? }

  // ---------------------------------------------------------------- superseded tasks

  /** What a task goes on with when its own work is over. */
  function ContOf(task: Task): Cont {
    if task.Cancelling? || task.FinishCockpit? || task.FinishReply? then task.cont else End
  }

  /** The one new thing a step can do is what its continuation does: start another turn. */
  predicate OnlyContinues(t: Tables, seg: Segment, cont: Cont, routed: bool) {
    seg == Stop(t) || seg == Continue(t, cont, routed)
  }

  /** A task resumed after its turn object lost its place in the table, by supersession under the
      same id or otherwise, sends nothing and touches no table entry; at most it goes on to the
      start that was waiting behind it. */
  lemma {:induction false} SupersededStep(t: Tables, task: Task, r: Result, routed: bool)
    requires HasObj(task) && !Tabled(t, task.obj)
    ensures OnlyContinues(t, Step(t, task, r, routed), ContOf(task), routed)
    ensures Step(t, task, r, routed).effects == []
  {
  }

  /** The entries of every other object stay: its place, its route, its being active or finished. */
  predicate Untouched(t: Tables, t': Tables, p: Obj) {
    && p < |t.objs| && p < |t'.objs| && t'.objs[p] == t.objs[p]
    && (Tabled(t, p) ==> Tabled(t', p) && (t.active == Some(t.objs[p].id) ==> t'.active == t.active))
    && (EventOf(t.objs[p]) in t.routes ==>
          EventOf(t.objs[p]) in t'.routes && t'.routes[EventOf(t.objs[p])] == t.routes[EventOf(t.objs[p])])
  }

  /** The step leaves object `p` alone; what it may do beyond that is to go on, from there, with the
      start that was waiting behind the task. */
  ghost predicate Spares(t: Tables, seg: Segment, p: Obj, cont: Cont, routed: bool) {
    exists t1: Tables :: Untouched(t, t1, p) && |t1.objs| == |t.objs|
                         && (seg.tables == t1 || seg == Continue(t1, cont, routed))
  }

  lemma ForgetSpares(t: Tables, o: Obj, p: Obj)
    requires TablesOk(t) && p < |t.objs| && p != o
    ensures Untouched(t, Forget(t, o), p)
  {
  }

  /** Two steps that leave `p` alone. */
  lemma UntouchedTwice(t: Tables, t1: Tables, t2: Tables, p: Obj)
    requires Untouched(t, t1, p) && Untouched(t1, t2, p)
    ensures Untouched(t, t2, p)
  {
  }

  lemma MarkSpares(t: Tables, o: Obj, p: Obj)
    requires o < |t.objs| && p < |t.objs| && p != o
    ensures Untouched(t, MarkFinished(t, o), p)
  {
  }

  lemma FinishSpares(t: Tables, o: Obj, p: Obj, cont: Cont, routed: bool)
    requires TablesOk(t) && p < |t.objs| && p != o
    ensures Spares(t, BeginFinish(t, o, cont, routed), p, cont, routed)
    ensures BeginFinish(t, o, cont, routed).effects == []
  {
    assert Untouched(t, t, p);
    if o < |t.objs| {
      var marked := MarkFinished(t, o);
      MarkOk(t, o);
      MarkSpares(t, o, p);
      ForgetSpares(marked, o, p);
      UntouchedTwice(t, marked, Forget(marked, o), p);
      assert |Forget(marked, o).objs| == |t.objs|;
    }
    ContinueIsSilent(t, cont, routed);
    if o < |t.objs| { ContinueIsSilent(Forget(MarkFinished(t, o), o), cont, routed); }
    hide TablesOk, Forget, Declines, Untouched, Continue, Owns;
  }

  lemma ContinueIsSilent(t: Tables, cont: Cont, routed: bool)
    ensures Continue(t, cont, routed).effects == []
  {
  }

  lemma ObjectStepSpares(t: Tables, task: Task, r: Result, routed: bool, p: Obj)
    requires TablesOk(t) && HasObj(task) && p < |t.objs| && p != task.obj
    ensures Spares(t, Step(t, task, r, routed), p, ContOf(task), routed)
    ensures forall x :: x in Step(t, task, r, routed).effects ==> x.obj != p
  {
    var o := task.obj;
    ForgetSpares(t, o, p);
    assert Untouched(t, t, p);
    assert |Forget(t, o).objs| == |t.objs|;
    FinishSpares(t, o, p, ContOf(task), routed);
    ContinueIsSilent(Forget(t, o), ContOf(task), routed);
    hide TablesOk, Forget, BeginFinish, Untouched, Continue, Owns;
  }

  /** Running any task leaves every turn object but its own alone and speaks for none of them, up to the
      start that may be waiting behind the task. */
  lemma {:induction false} OthersAreSpared(t: Tables, task: Task, r: Result, routed: bool, p: Obj)
    requires TablesOk(t) && p < |t.objs| && (HasObj(task) ==> p != task.obj)
    ensures Spares(t, Step(t, task, r, routed), p, ContOf(task), routed)
    ensures forall x :: x in Step(t, task, r, routed).effects ==> x.obj != p
  {
    assert Untouched(t, t, p);
    if HasObj(task) {
      hide Step;
      ObjectStepSpares(t, task, r, routed, p);
    } else {
      assert BeginCancel(t, false, End, routed).tables == t && BeginCancel(t, false, End, routed).effects == [];
      hide TablesOk, Untouched, BeginCancel;
    }
  }

  // ---------------------------------------------------------------- what a step leaves behind

  /** Where a task can come from, and what leaves with it. */
  predicate Fate(t: Tables, task: Task, seg: Segment) {
    && (HasObj(seg.task) ==> seg.task.obj < |seg.tables.objs|)
    && (seg.task.FinishCockpit? ==> seg.effects == [] && seg.task.obj < |t.objs|
                                    && !t.objs[seg.task.obj].finished && seg.tables.objs[seg.task.obj].finished)
    && (seg.task.OpenCockpit? ==> seg.effects == [] && seg.task.obj == |t.objs|)
    && (seg.task.FinishReply? ==> task.FinishCockpit? && seg.task.obj == task.obj && seg.tables == t
                                  && Owns(t, task.obj, false, false) && seg.effects == [Replied(task.obj, t.objs[task.obj].text)])
    && (seg.task.Dispatching? ==> task.OpenCockpit? && seg.task.obj == task.obj && seg.tables == t
                                  && Owns(t, task.obj, true, true) && seg.effects == [Dispatched(task.obj)])
    && (seg.task.AbortCancel? || seg.task.AbortDiscard? ==> Starting(task) && seg.task.obj == task.obj && seg.effects == [])
    && (seg.task.Done? || seg.task.Dropping? || seg.task.Cancelling? ==> seg.effects == [])
  }

  lemma ContinueFate(t: Tables, t1: Tables, task: Task, cont: Cont, routed: bool)
    requires |t1.objs| == |t.objs|
    ensures Fate(t, task, Continue(t1, cont, routed))
  {
    hide Owns;
  }

  lemma BeginFinishFate(t: Tables, task: Task, o: Obj, cont: Cont, routed: bool)
    requires o < |t.objs|
    ensures Fate(t, task, BeginFinish(t, o, cont, routed))
  {
    ContinueFate(t, t, task, cont, routed);
    var marked := MarkFinished(t, o);
    ContinueFate(t, Forget(marked, o), task, cont, routed);
    hide Continue, Forget, Owns;
  }

  lemma BeginCancelFate(t: Tables, task: Task, sendDone: bool, cont: Cont, routed: bool)
    requires TablesOk(t)
    ensures Fate(t, task, BeginCancel(t, sendDone, cont, routed))
  {
    if t.active.Some? { assert EntryOk(t, t.active.value); }
    ContinueFate(t, t, task, cont, routed);
    hide Continue;
  }

  lemma StepFate(t: Tables, task: Task, r: Result, routed: bool)
    requires TablesOk(t) && (HasObj(task) ==> task.obj < |t.objs|)
    ensures Fate(t, task, Step(t, task, r, routed))
  {
    if HasObj(task) {
      HasObjFate(t, task, r, routed);
    } else {
      BeginCancelFate(t, task, false, End, routed);
      hide TablesOk, BeginCancel;
    }
  }

  lemma HasObjFate(t: Tables, task: Task, r: Result, routed: bool)
    requires HasObj(task) && task.obj < |t.objs|
    ensures Fate(t, task, Step(t, task, r, routed))
  {
    var o := task.obj;
    if task.Cancelling? { BeginFinishFate(t, task, o, ContOf(task), routed); }
    ContinueFate(t, Forget(t, o), task, ContOf(task), routed);
    assert |Forget(t, o).objs| == |t.objs|;
    hide BeginFinish, Continue, Forget, Owns;
  }

  // ---------------------------------------------------------------- at most once

  predicate Known(s: State, o: Obj) { o < |s.tables.objs| }

  predicate TaskOk(s: State, task: Task) {
    HasObj(task) ==> Known(s, task.obj) && (Finishing(task) ==> s.tables.objs[task.obj].finished)
  }

  predicate Clash(a: Task, b: Task) {
    (Finishing(a) && Finishing(b) && a.obj == b.obj) || (Starting(a) && Starting(b) && a.obj == b.obj)
  }

  /** The step after which this effect left has been taken. */
  predicate Outdated(task: Task, x: Effect) {
    (x.Replied? && task.FinishCockpit? && task.obj == x.obj) || (x.Dispatched? && task.OpenCockpit? && task.obj == x.obj)
  }

  predicate SameKind(x: Effect, y: Effect) {
    x.obj == y.obj && x.Replied? == y.Replied?
  }

  predicate EffectOk(s: State, x: Effect) {
    Known(s, x.obj) && (x.Replied? ==> s.tables.objs[x.obj].finished)
  }

  predicate TasksOk(s: State) {
    && (forall k :: 0 <= k < |s.tasks| ==> TaskOk(s, s.tasks[k]))
    && (forall j, k :: 0 <= j < k < |s.tasks| ==> !Clash(s.tasks[j], s.tasks[k]))
    && (forall i :: 0 <= i < |s.log| ==> EffectOk(s, s.log[i]))
    && (forall i, k :: 0 <= i < |s.log| && 0 <= k < |s.tasks| ==> !Outdated(s.tasks[k], s.log[i]))
    && (forall i, j :: 0 <= i < j < |s.log| ==> !SameKind(s.log[i], s.log[j]))
  }

  /** The state after task `k` ran from one await to the next. */
  function After(s: State, k: nat, seg: Segment): State
    requires k < |s.tasks|
  {
    State(seg.tables, s.tasks[k := seg.task], s.log + seg.effects)
  }

  predicate Ran(s: State, k: nat, seg: Segment) {
    k < |s.tasks| && Declines(s.tables, seg.tables) && Fate(s.tables, s.tasks[k], seg)
  }

  lemma AfterTasks(s: State, k: nat, seg: Segment)
    requires TasksOk(s) && Ran(s, k, seg)
    ensures var s' := After(s, k, seg); forall j :: 0 <= j < |s'.tasks| ==> TaskOk(s', s'.tasks[j])
  {
    var s' := After(s, k, seg);
    hide Owns, Tabled, Live;
    forall j | 0 <= j < |s'.tasks| ensures TaskOk(s', s'.tasks[j]) {
      assert TaskOk(s, s.tasks[j]);
    }
  }

  lemma AfterClash(s: State, k: nat, seg: Segment)
    requires TasksOk(s) && Ran(s, k, seg)
    ensures var s' := After(s, k, seg); forall i, j :: 0 <= i < j < |s'.tasks| ==> !Clash(s'.tasks[i], s'.tasks[j])
  {
    var s' := After(s, k, seg);
    hide Owns, Declines;
    forall j | 0 <= j < |s.tasks| && j != k ensures !Clash(seg.task, s.tasks[j]) && !Clash(s.tasks[j], seg.task) {
      assert TaskOk(s, s.tasks[j]);
      assert j < k ==> !Clash(s.tasks[j], s.tasks[k]);
      assert k < j ==> !Clash(s.tasks[k], s.tasks[j]);
    }
  }

  lemma AfterEffects(s: State, k: nat, seg: Segment)
    requires TasksOk(s) && Ran(s, k, seg)
    ensures var s' := After(s, k, seg); forall i :: 0 <= i < |s'.log| ==> EffectOk(s', s'.log[i])
  {
    var s' := After(s, k, seg);
    hide Owns, Tabled, Live;
    assert TaskOk(s, s.tasks[k]);
    forall i | 0 <= i < |s'.log| ensures EffectOk(s', s'.log[i]) {
      if i < |s.log| { assert EffectOk(s, s.log[i]); }
    }
  }

  lemma AfterOutdated(s: State, k: nat, seg: Segment)
    requires TasksOk(s) && Ran(s, k, seg)
    ensures var s' := After(s, k, seg);
            forall i, j :: 0 <= i < |s'.log| && 0 <= j < |s'.tasks| ==> !Outdated(s'.tasks[j], s'.log[i])
  {
    var s' := After(s, k, seg);
    hide Owns, Declines;
    forall i, j | 0 <= i < |s'.log| && 0 <= j < |s'.tasks| ensures !Outdated(s'.tasks[j], s'.log[i]) {
      if i < |s.log| { assert EffectOk(s, s.log[i]); }
      assert j < k ==> !Clash(s.tasks[j], s.tasks[k]);
      assert k < j ==> !Clash(s.tasks[k], s.tasks[j]);
    }
  }

  lemma AfterOnce(s: State, k: nat, seg: Segment)
    requires TasksOk(s) && Ran(s, k, seg)
    ensures var s' := After(s, k, seg); forall i, j :: 0 <= i < j < |s'.log| ==> !SameKind(s'.log[i], s'.log[j])
  {
    var s' := After(s, k, seg);
    hide Owns, Declines;
    forall i, j | 0 <= i < j < |s'.log| ensures !SameKind(s'.log[i], s'.log[j]) {
      if j >= |s.log| { assert !Outdated(s.tasks[k], s.log[i]); }
    }
  }

  lemma AfterOk(s: State, k: nat, seg: Segment)
    requires TasksOk(s) && Ran(s, k, seg)
    ensures TasksOk(After(s, k, seg))
  {
    AfterTasks(s, k, seg);
    AfterClash(s, k, seg);
    AfterEffects(s, k, seg);
    AfterOutdated(s, k, seg);
    AfterOnce(s, k, seg);
    hide Ran, After, TaskOk, Clash, EffectOk, Outdated, SameKind;
  }

  /** A new task is one more that had nothing to do. */
  lemma SpawnOk(s: State, seg: Segment)
    requires TasksOk(s) && Declines(s.tables, seg.tables) && Fate(s.tables, Done, seg)
    ensures TasksOk(Spawn(s, seg))
  {
    var idle := s.(tasks := s.tasks + [Done]);
    assert TasksOk(idle) by {
      hide Declines, Fate;
      assert forall k :: 0 <= k < |idle.tasks| ==> idle.tasks[k] == if k < |s.tasks| then s.tasks[k] else Done;
    }
    hide TasksOk, Declines, Fate;
    AfterOk(idle, |s.tasks|, seg);
    assert After(idle, |s.tasks|, seg) == Spawn(s, seg);
  }

  /** Only the tables changed, and no object was made or took its place back. */
  lemma TablesOnlyOk(s: State, t: Tables)
    requires TasksOk(s) && Declines(s.tables, t)
    ensures TasksOk(s.(tables := t))
  {
    var s' := s.(tables := t);
    hide Tabled, Live, Clash, Outdated, SameKind;
    forall k | 0 <= k < |s.tasks| ensures TaskOk(s', s.tasks[k]) { assert TaskOk(s, s.tasks[k]); }
    forall i | 0 <= i < |s.log| ensures EffectOk(s', s.log[i]) { assert EffectOk(s, s.log[i]); }
  }

  lemma CancelTasksOk(s: State, cont: Cont, routed: bool)
    requires TablesOk(s.tables) && TasksOk(s)
    ensures TasksOk(Spawn(s, BeginCancel(s.tables, true, cont, routed)))
  {
    BeginCancelOk(s.tables, true, cont, routed);
    BeginCancelFate(s.tables, Done, true, cont, routed);
    hide TasksOk, Declines, TablesOk, Fate, BeginCancel, Spawn;
    SpawnOk(s, BeginCancel(s.tables, true, cont, routed));
  }

  lemma StartTasksOk(s: State, cont: Cont, routed: bool)
    requires TablesOk(s.tables) && TasksOk(s)
    ensures TasksOk(Spawn(s, Continue(s.tables, cont, routed)))
  {
    ContinueOk(s.tables, cont, routed);
    ContinueFate(s.tables, s.tables, Done, cont, routed);
    hide TasksOk, Declines, TablesOk, Fate, Continue, Spawn;
    SpawnOk(s, Continue(s.tables, cont, routed));
  }

  lemma DropTasksOk(s: State)
    requires TablesOk(s.tables) && TasksOk(s)
    ensures TasksOk(Spawn(s, Segment(s.tables.(phone := None), Dropping, [])))
  {
    hide TasksOk, TablesOk, Declines, Spawn;
    var t := s.tables;
    PhoneOk(t, t.(phone := None));
    SpawnOk(s, Segment(t.(phone := None), Dropping, []));
  }

  lemma FinishTasksOk(s: State, event: EventId)
    requires TablesOk(s.tables) && TasksOk(s)
    ensures var o := Routed(s.tables, event); o.Some? ==> TasksOk(Spawn(s, BeginFinish(s.tables, o.value, End, true)))
  {
    var t := s.tables;
    var o := Routed(t, event);
    assert o.Some? ==> o.value < |t.objs|;
    hide TasksOk, Declines, TablesOk, Fate, BeginFinish, Spawn, Routed;
    if o.Some? {
      BeginFinishOk(t, o.value, End, true);
      BeginFinishFate(t, Done, o.value, End, true);
      SpawnOk(s, BeginFinish(t, o.value, End, true));
    }
  }

  lemma ResumeTasksOk(s: State, k: nat, r: Result, routed: bool)
    requires TablesOk(s.tables) && TasksOk(s) && k < |s.tasks|
    ensures TasksOk(After(s, k, Step(s.tables, s.tasks[k], r, routed)))
  {
    assert TaskOk(s, s.tasks[k]);
    hide TasksOk, Declines, TablesOk, Fate, Step;
    StepOk(s.tables, s.tasks[k], r, routed);
    StepFate(s.tables, s.tasks[k], r, routed);
    AfterOk(s, k, Step(s.tables, s.tasks[k], r, routed));
  }

  lemma NextTasksOk(s: State, e: Event)
    requires TablesOk(s.tables) && TasksOk(s)
    ensures TasksOk(Next(s, e))
  {
    hide TasksOk, Declines, TablesOk, BeginCancel, BeginFinish, Create, Spawn, Spoken, Step, Routed;
    var t := s.tables;
    NextTablesOk(s, e);
    match e
    case Attach => TablesOnlyOk(s, Next(s, e).tables);
    case Say(_, _, _) => TablesOnlyOk(s, Next(s, e).tables);
    case Drop => DropTasksOk(s);
    case VoiceTurn(id, binding, routed) =>
      if t.phone.Some? {
        var cont := StartTurn(id, t.phone.value, binding);
        CancelTasksOk(s, cont, routed);
        StartTasksOk(s, cont, routed);
      }
    case HostCancel(binding) => CancelTasksOk(s, End, true);
    case Complete(event, generation) => FinishTasksOk(s, event);
    case Resume(k, r, routed) => if k < |s.tasks| { ResumeTasksOk(s, k, r, routed); }
  }

  lemma ReachableTasks(events: seq<Event>)
    ensures TasksOk(Run(Initial(), events))
  {
    hide Run;
    KeepsTasks(Initial(), events);
  }

  /** No turn object is dispatched twice or answered twice, under any interleaving. */
  lemma {:induction false} AtMostOnce(events: seq<Event>, i: nat, j: nat)
    requires var log := Run(Initial(), events).log;
             i < j < |log| && log[i].Replied? == log[j].Replied?
    ensures var log := Run(Initial(), events).log; log[i].obj != log[j].obj
  {
    ReachableTasks(events);
    hide Run, TaskOk, Clash, Outdated, EffectOk;
    var s := Run(Initial(), events);
    assert !SameKind(s.log[i], s.log[j]);
  }

  /** What leaves is owned at that moment: a dispatch by the active, unfinished turn, an answer by
      the tabled turn that was just finished, in its own words, and both through its own phone. */
  predicate Rightful(t: Tables, x: Effect) {
    && Tabled(t, x.obj) && t.phone == Some(t.objs[x.obj].phone)
    && (x.Dispatched? ==> t.active == Some(t.objs[x.obj].id) && !t.objs[x.obj].finished)
    && (x.Replied? ==> t.objs[x.obj].finished && x.text == t.objs[x.obj].text)
  }

  lemma SpawnedIsSilent(t: Tables, seg: Segment)
    requires Fate(t, Done, seg)
    ensures seg.effects == []
  {
  }

  /** `s'` has at most one effect more than `s`, and that one is rightful. */
  predicate AddsRightful(s: State, s': State) {
    && |s.log| <= |s'.log| <= |s.log| + 1 && s'.log[..|s.log|] == s.log
    && (|s'.log| > |s.log| ==> s'.tables == s.tables && Rightful(s.tables, s'.log[|s.log|]))
  }

  lemma ResumeIsRightful(s: State, k: nat, r: Result, routed: bool)
    requires TablesOk(s.tables) && TasksOk(s)
    ensures AddsRightful(s, Next(s, Resume(k, r, routed)))
  {
    if k < |s.tasks| {
      assert TaskOk(s, s.tasks[k]);
      StepFate(s.tables, s.tasks[k], r, routed);
      hide TasksOk, TablesOk, Step;
    }
  }

  lemma StartIsSilent(s: State, e: Event)
    requires TablesOk(s.tables) && (e.VoiceTurn? || e.HostCancel?)
    ensures Next(s, e).log == s.log
  {
    var t := s.tables;
    if e.VoiceTurn? && t.phone.Some? {
      var cont := StartTurn(e.id, t.phone.value, e.binding);
      BeginCancelFate(t, Done, true, cont, e.routed);
      ContinueFate(t, t, Done, cont, e.routed);
      SpawnedIsSilent(t, BeginCancel(t, true, cont, e.routed));
      SpawnedIsSilent(t, Create(t, e.id, t.phone.value, e.binding, e.routed));
    }
    if e.HostCancel? {
      BeginCancelFate(t, Done, true, End, true);
      SpawnedIsSilent(t, BeginCancel(t, true, End, true));
    }
    hide TasksOk, TablesOk, Fate, BeginCancel, Create;
  }

  lemma NextIsRightful(s: State, e: Event)
    requires TablesOk(s.tables) && TasksOk(s)
    ensures AddsRightful(s, Next(s, e))
  {
    if e.Resume? {
      hide TablesOk, TasksOk, Next;
      ResumeIsRightful(s, e.k, e.result, e.routed);
    } else if e.VoiceTurn? || e.HostCancel? {
      StartIsSilent(s, e);
      hide TasksOk, TablesOk, Next;
    } else if e.Complete? {
      var o := Routed(s.tables, e.event);
      if o.Some? {
        BeginFinishFate(s.tables, Done, o.value, End, true);
        SpawnedIsSilent(s.tables, BeginFinish(s.tables, o.value, End, true));
      }
      hide TasksOk, TablesOk, Fate, BeginFinish, Routed;
    } else {
      hide TasksOk, TablesOk, Spoken;
    }
  }

  lemma {:induction false} OnlyRightfulLeaves(events: seq<Event>, e: Event)
    ensures AddsRightful(Run(Initial(), events), Next(Run(Initial(), events), e))
  {
    ReachableTasks(events);
    ReachableTables(events);
    hide Run, Next, AddsRightful, TasksOk, TablesOk;
    NextIsRightful(Run(Initial(), events), e);
  }

  lemma {:induction false} KeepsTasks(s: State, more: seq<Event>)
    requires TablesOk(s.tables) && TasksOk(s)
    ensures TasksOk(Run(s, more))
    decreases |more|
  {
    hide Next, TasksOk;
    if more != [] {
      KeepsTasks(s, more[..|more| - 1]);
      RunTablesOk(s, more[..|more| - 1]);
      NextTasksOk(Run(s, more[..|more| - 1]), more[|more| - 1]);
    }
  }

  /** No effect for `o` left between `s` and `s'`. */
  predicate Silent(s: State, s': State, o: Obj) {
    forall i :: |s.log| <= i < |s'.log| ==> s'.log[i].obj != o
  }

  lemma SilentStep(s: State, before: State, after: State, o: Obj)
    requires o < |s.tables.objs| && !Tabled(s.tables, o) && Declines(s.tables, before.tables)
    requires Silent(s, before, o) && AddsRightful(before, after)
    ensures Silent(s, after, o)
  {
    assert !Tabled(before.tables, o);
    hide Declines, Tabled;
    forall i | |s.log| <= i < |after.log| ensures after.log[i].obj != o {
      assert i < |before.log| ==> after.log[i] == after.log[..|before.log|][i];
    }
  }

  /** Once a turn object has lost its place, nothing is ever dispatched or answered for it again,
      however many of its coroutines are still suspended. */
  lemma {:induction false} SupersededForever(s: State, more: seq<Event>, o: Obj)
    requires TablesOk(s.tables) && TasksOk(s) && o < |s.tables.objs| && !Tabled(s.tables, o)
    ensures Silent(s, Run(s, more), o)
    decreases |more|
  {
    hide TasksOk, TablesOk, Next;
    if more != [] {
      var n := |more| - 1;
      var before := Run(s, more[..n]);
      assert Run(s, more) == Next(before, more[n]);
      hide Run;
      SupersededForever(s, more[..n], o);
      KeepsTasks(s, more[..n]);
      RunTablesOk(s, more[..n]);
      NextIsRightful(before, more[n]);
      hide AddsRightful, Silent, Declines, MakesFresh;
      SilentStep(s, before, Next(before, more[n]), o);
    }
  }

  lemma {:induction false} SupersededInEveryRun(events: seq<Event>, more: seq<Event>, o: Obj)
    requires var t := Run(Initial(), events).tables; o < |t.objs| && !Tabled(t, o)
    ensures Silent(Run(Initial(), events), Run(Run(Initial(), events), more), o)
  {
    ReachableTasks(events);
    ReachableTables(events);
    hide Run, TasksOk, TablesOk;
    SupersededForever(Run(Initial(), events), more, o);
  }
}
