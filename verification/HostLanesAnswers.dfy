/** What every request on a connection is owed: which are admitted, and that an admitted one is answered. */
module HostLanesAnswers {
  import opened HostLanes
  import opened HostLanesSafety

  // ---------------------------------------------------------------- pending calls are answered

  /** The request leaves its lane with this answer, and nothing else changes. */
  predicate AnsweredAs(s: State, s': State, id: Id, source: Source) {
    s' == s.(voices := s.voices - {id}, cues := s.cues - {id}, completed := s.completed + {id},
             replies := s.replies + [Terminal(id, source)])
  }

  lemma NotInLane<V>(m: map<Id, V>, id: Id)
    requires id !in m
    ensures m - {id} == m
  {
  }

  /** In every run a turn that is completed has its voice call answered exactly when that call is pending
      with this very generation on an open connection, and a cue job that is done has its request answered
      exactly when that is pending for this very job; anything else changes nothing. */
  lemma {:induction false} PendingIsAnsweredExactlyWhen(events: seq<Event>, id: Id, n: nat)
    ensures var s := Run(Initial(), events);
            var completed, done := Next(s, CompleteTurn(id, n)), Next(s, CueDone(n));
            && (if id in s.voices && s.voices[id].generation == n
                then AnsweredAs(s, completed, id, VoiceLane(n)) else completed == s)
            && (id in s.cues && s.cues[id] == n ==> AnsweredAs(s, done, id, CueLane(n)))
            && ((forall x :: x in s.cues ==> s.cues[x] != n) ==> done == s)
  {
    var s := Run(Initial(), events);
    ReachableInv(events);
    hide Run, AnswersOk, GenerationsOk, LanesOk, FinishVoice, CueDoneNext, AnsweredAs;
    TurnIsAnswered(s, id, n);
    CueIsAnswered(s, id, n);
  }

  lemma TurnIsAnswered(s: State, id: Id, n: nat)
    requires LanesOk(s)
    ensures if id in s.voices && s.voices[id].generation == n
            then AnsweredAs(s, FinishVoice(s, id, n), id, VoiceLane(n)) else FinishVoice(s, id, n) == s
  {
    if id in s.voices {
      assert !s.closed && id !in s.cues;
      NotInLane(s.cues, id);
    }
  }

  lemma OnlyCue(s: State, id: Id)
    requires LanesOk(s) && id in s.cues
    ensures !s.closed && id !in s.voices && forall x :: x in s.cues ==> x == id
  {
    forall x | x in s.cues ensures x == id { OneKey(s.cues, x, id); }
  }

  lemma CueIsAnswered(s: State, id: Id, n: nat)
    requires LanesOk(s)
    ensures id in s.cues && s.cues[id] == n ==> AnsweredAs(s, CueDoneNext(s, n), id, CueLane(n))
    ensures (forall x :: x in s.cues ==> s.cues[x] != n) ==> CueDoneNext(s, n) == s
  {
    hide LanesOk;
    if id in s.cues && s.cues[id] == n {
      OnlyCue(s, id);
      NotInLane(s.voices, id);
      assert CueDoneNext(s, n) == FinishCue(s, id, n) by { hide FinishCue; }
      hide CueDoneNext;
    }
  }

  // ---------------------------------------------------------------- messages

  /** The id was never used on this connection. */
  predicate Unused(s: State, id: Id) {
    id !in s.voices && id !in s.cues && id !in s.completed
  }

  /** The handler may take a message. */
  predicate Ready(s: State) {
    !s.closed && s.frame == Idle
  }

  /** A request is refused for its shape or its id, refused because 4096 requests were answered, or let in. */
  lemma {:induction false} RequestsAreScreened(events: seq<Event>, m: Message)
    requires !m.InitializedNote? && !m.CancelNote?
    ensures var s := Run(Initial(), events); var s' := Next(s, Receive(m)); var id := IdOf(m);
            if !Ready(s) then s' == s
            else if m.Malformed? || !Unused(s, id) then s' == s.(frame := Duplicate(id))
            else if |s.completed| >= 4096 then s' == s.(frame := Exhausted(id))
            else s'.frame == Replying(id) || s'.frame == StartingVoice(id, s.nextGeneration)
                 || s'.frame == Superseding(id) || (s'.frame == Idle && id in s'.cues)
  {
    hide Run, FinishCue, SomeCue;
  }

  /** A request with a new id comes to an idle open server whose budget lasts. */
  predicate LetIn(s: State, id: Id) {
    Ready(s) && Unused(s, id) && |s.completed| < 4096
  }

  /** In every run a voice call is started exactly when the connection is initialized, the call is well
      formed, no other is pending and its generation is a safe integer; its lane then holds it and nothing
      else.  Otherwise it is answered at once. */
  lemma {:induction false} VoiceStartsExactlyWhen(events: seq<Event>, id: Id, valid: bool)
    requires LetIn(Run(Initial(), events), id)
    ensures var s := Run(Initial(), events); var s' := Next(s, Receive(Message.VoiceCall(id, valid))); var g := s.nextGeneration;
            s' == if s.lifecycle == Initialized && valid && s.voices == map[] && g <= 9_007_199_254_740_991
                  then s.(voices := map[id := Voice(g, false)], nextGeneration := g + 1, started := s.started + [g],
                          frame := StartingVoice(id, g))
                  else s.(frame := Replying(id))
  {
    hide Run;
    var s := Run(Initial(), events);
    EmptyLane(s.voices);
  }

  lemma EmptyLane<V>(m: map<Id, V>)
    ensures m.Keys == {} <==> m == map[]
  {
    if m.Keys == {} { assert forall id :: id !in m; }
  }

  /** In every run a cue call begins its job at once when no other is pending; when one is, that one is
      answered and the new job waits for the answer to be sent.  A call that is not well formed, or comes
      too early, is answered at once. */
  lemma {:induction false} CueStartsExactlyWhen(events: seq<Event>, id: Id, valid: bool)
    requires LetIn(Run(Initial(), events), id)
    ensures var s := Run(Initial(), events); var s' := Next(s, Receive(Message.CueCall(id, valid)));
            && (!(s.lifecycle == Initialized && valid) ==> s' == s.(frame := Replying(id)))
            && (s.lifecycle == Initialized && valid && s.cues == map[] ==>
                  s' == s.(cues := map[id := s.nextCue], nextCue := s.nextCue + 1))
            && (forall x :: s.lifecycle == Initialized && valid && x in s.cues ==>
                  AnsweredAs(s.(frame := Superseding(id)), s', x, CueLane(s.cues[x])))
  {
    var s := Run(Initial(), events);
    ReachableInv(events);
    hide Run, AnswersOk, GenerationsOk;
    EmptyLane(s.cues);
    if s.cues != map[] {
      var x := SomeCue(s);
      forall y | y in s.cues ensures y == x { OneKey(s.cues, x, y); }
      assert x !in s.voices && !s.closed;
      NotInLane(s.voices, x);
      hide SomeCue;
    }
  }

  /** In every run initialization is taken once: by the first well-formed request, and then by the notice
      of the client.  Every other method is answered at once. */
  lemma {:induction false} InitializesOnce(events: seq<Event>, id: Id, valid: bool)
    requires LetIn(Run(Initial(), events), id)
    ensures var s := Run(Initial(), events);
            && Next(s, Receive(Message.Initialize(id, valid)))
               == s.(frame := Replying(id), lifecycle := if s.lifecycle == Fresh && valid then Initializing else s.lifecycle)
            && Next(s, Receive(InitializedNote))
               == s.(lifecycle := if s.lifecycle == Initializing then Initialized else s.lifecycle)
            && Next(s, Receive(Simple(id))) == s.(frame := Replying(id))
  {
    hide Run;
  }

  /** In every run a cancellation reaches a pending voice call the first time it is asked for, has a pending
      cue call answered, and is otherwise ignored. */
  lemma {:induction false} CancelsExactlyWhen(events: seq<Event>, target: Id)
    ensures var s := Run(Initial(), events); var s' := Next(s, Receive(CancelNote(target)));
            if !Ready(s) || s.lifecycle != Initialized then s' == s
            else if target in s.voices then
              var g := s.voices[target].generation;
              s' == if s.voices[target].cancelling then s
                    else s.(voices := s.voices[target := Voice(g, true)], cancels := s.cancels + [g], frame := CancellingVoice(target, g))
            else if target in s.cues then AnsweredAs(s.(frame := CancellingCue), s', target, CueLane(s.cues[target]))
            else s' == s
  {
    var s := Run(Initial(), events);
    ReachableInv(events);
    hide Run, AnswersOk, GenerationsOk;
    if target in s.cues && target !in s.voices { NotInLane(s.voices, target); }
  }

  // ---------------------------------------------------------------- after the await

  /** In every run the handler that goes on answers the request it stands for and is idle again.  A send
      that fails answers nobody; a voice turn that could not be started or cancelled is answered as failed
      while it is still pending; a job that superseded another begins, or is refused after a close; and the
      answer to an exhausted connection closes it. */
  lemma {:induction false} HandlerGoesOn(events: seq<Event>, r: Result)
    ensures var s := Run(Initial(), events); var s' := Next(s, Resume(r)); var idle := s.(frame := Idle);
            && (s.frame.Idle? || s.frame.CancellingCue? ==> s' == idle)
            && (s.frame.Replying? && r == Ok ==>
                  s' == idle.(completed := s.completed + {s.frame.id}, replies := s.replies + [Terminal(s.frame.id, Immediate)]))
            && (s.frame.Duplicate? && r == Ok ==> s' == idle.(replies := s.replies + [FixedError(s.frame.id)]))
            && (s.frame.Exhausted? && r == Ok ==>
                  s' == idle.(closed := true, voices := map[], cues := map[], completed := {},
                              replies := s.replies + [ExhaustedError(s.frame.id)]))
            && ((s.frame.Replying? || s.frame.Duplicate? || s.frame.Exhausted? || s.frame.Superseding?) && r != Ok ==> s' == idle)
            && (s.frame.StartingVoice? || s.frame.CancellingVoice? ==>
                  var id, g := s.frame.id, s.frame.generation;
                  if r == Failed && id in s.voices && s.voices[id].generation == g
                  then AnsweredAs(idle, s', id, VoiceLane(g)) else s' == idle)
            && (s.frame.Superseding? && r == Ok ==>
                  s' == if s.closed then s.(frame := Replying(s.frame.id))
                        else idle.(cues := map[s.frame.id := s.nextCue], nextCue := s.nextCue + 1))
  {
    var s := Run(Initial(), events);
    ReachableInv(events);
    hide Run, AnswersOk, GenerationsOk;
    EmptyLane(s.cues);
    if (s.frame.StartingVoice? || s.frame.CancellingVoice?) && s.frame.id in s.voices { NotInLane(s.cues, s.frame.id); }
  }

  // ---------------------------------------------------------------- a whole voice call

  lemma RunMore(s: State, events: seq<Event>, e: Event)
    ensures Run(s, events + [e]) == Next(Run(s, events), e)
  {
    hide Next;
    assert (events + [e])[..|events|] == events;
  }

  /** On an initialized connection a voice call that nobody disturbs is started, and answered for its own
      turn when that is completed; its id is then used up and its lane is free. */
  lemma {:induction false} UndisturbedVoiceCall(events: seq<Event>, id: Id)
    requires var s := Run(Initial(), events);
             LetIn(s, id) && s.lifecycle == Initialized && s.voices == map[] && s.nextGeneration <= 9_007_199_254_740_991
    ensures var s := Run(Initial(), events); var g := s.nextGeneration;
            Run(Initial(), events + [Receive(Message.VoiceCall(id, true))] + [Resume(Ok)] + [CompleteTurn(id, g)])
            == s.(nextGeneration := g + 1, started := s.started + [g], completed := s.completed + {id},
                  replies := s.replies + [Terminal(id, VoiceLane(g))])
  {
    var s := Run(Initial(), events);
    var g := s.nextGeneration;
    VoiceStartsExactlyWhen(events, id, true);
    var started := events + [Receive(Message.VoiceCall(id, true))];
    RunMore(Initial(), events, Receive(Message.VoiceCall(id, true)));
    var waiting := started + [Resume(Ok)];
    HandlerGoesOn(started, Ok);
    RunMore(Initial(), started, Resume(Ok));
    hide Run, Next;
    assert Run(Initial(), waiting) == s.(voices := map[id := Voice(g, false)], nextGeneration := g + 1, started := s.started + [g]) by {
      StartGoesOn(s, id, g);
    }
    PendingIsAnsweredExactlyWhen(waiting, id, g);
    RunMore(Initial(), waiting, CompleteTurn(id, g));
    assert map[id := Voice(g, false)] - {id} == map[];
    NotInLane(s.cues, id);
  }

  lemma StartGoesOn(s: State, id: Id, g: nat)
    requires s.frame == Idle
    ensures Next(s.(voices := map[id := Voice(g, false)], nextGeneration := g + 1, started := s.started + [g],
                    frame := StartingVoice(id, g)), Resume(Ok))
            == s.(voices := map[id := Voice(g, false)], nextGeneration := g + 1, started := s.started + [g])
  {
  }
}
