/** What the request lanes promise over every interleaving on one connection. */
module HostLanesSafety {
  import opened HostLanes

  ghost predicate Inv(s: State) {
    LanesOk(s) && AnswersOk(s) && GenerationsOk(s)
  }

  // ---------------------------------------------------------------- counting

  lemma MapDrops<V>(m: map<Id, V>, id: Id)
    requires id in m
    ensures |m - {id}| == |m| - 1 && (m - {id}).Keys == m.Keys - {id}
  {
    var fewer := m - {id};
    assert m.Keys == fewer.Keys + {id};
    assert |m| == |m.Keys| && |fewer| == |fewer.Keys|;
  }

  lemma MapGains<V>(m: map<Id, V>, id: Id, v: V)
    requires id !in m
    ensures |m[id := v]| == |m| + 1 && m[id := v].Keys == m.Keys + {id}
  {
    assert m[id := v].Keys == m.Keys + {id};
    assert |m| == |m.Keys| && |m[id := v]| == |m[id := v].Keys|;
  }

  lemma OneKey<V>(m: map<Id, V>, a: Id, b: Id)
    requires |m| <= 1 && a in m && b in m
    ensures a == b
  {
    MapDrops(m, a);
    assert (m - {a}).Keys == {};
  }

  lemma AnsweredGrows(s: State, s': State, id: Id, source: Source)
    requires s'.replies == s.replies + [Terminal(id, source)]
    ensures forall x :: Answered(s', x) <==> Answered(s, x) || x == id
  {
    assert s'.replies[|s.replies|] == Terminal(id, source);
    forall x | Answered(s, x) ensures Answered(s', x) {
      var i :| 0 <= i < |s.replies| && s.replies[i].Terminal? && s.replies[i].id == x;
      assert s'.replies[i] == s.replies[i];
    }
  }

  // ---------------------------------------------------------------- one answer

  /** Answering a request that was in a lane or in hand moves it to the completed ones. */
  lemma AnswerKeeps(s: State, t: State, id: Id, source: Source)
    requires AnswersOk(s) && !Answered(s, id)
    requires t.replies == s.replies && s.completed <= t.completed + {id} && (s.closed ==> t.closed)
    requires t.voices.Keys <= s.voices.Keys && t.cues.Keys <= s.cues.Keys && InHand(t) <= InHand(s)
    requires id !in t.voices && id !in t.cues && id !in InHand(t)
    ensures AnswersOk(Answer(t, id, source))
  {
    var s' := Answer(t, id, source);
    AnsweredGrows(s, s', id, source);
    forall i, j | 0 <= i < j < |s'.replies| && s'.replies[i].Terminal? && s'.replies[j].Terminal?
      ensures s'.replies[i].id != s'.replies[j].id
    {
      if j == |s.replies| { assert Answered(s, s.replies[i].id); }
    }
  }

  /** `t` is `s` with the request `id` taken out of its lane or out of the hand. */
  predicate Takes(s: State, t: State, id: Id) {
    && t.completed == s.completed && t.replies == s.replies && t.closed == s.closed
    && t.voices.Keys <= s.voices.Keys && t.cues.Keys <= s.cues.Keys && InHand(t) <= InHand(s)
    && |t.voices| <= |s.voices| && |t.cues| <= |s.cues|
    && |t.voices| + |t.cues| + |InHand(t)| < |s.voices| + |s.cues| + |InHand(s)|
    && id !in t.voices && id !in t.cues && id !in InHand(t) && id !in s.completed
    && (t.frame.Superseding? ==> s.frame.Superseding?)
  }

  lemma AnswerLanes(s: State, t: State, id: Id, source: Source)
    requires LanesOk(s) && Takes(s, t, id)
    ensures LanesOk(Answer(t, id, source))
  {
    assert |s.completed + {id}| == |s.completed| + 1;
  }

  lemma AnswerAll(s: State, t: State, id: Id, source: Source)
    requires LanesOk(s) && AnswersOk(s) && GenerationsOk(t) && Takes(s, t, id) && !Answered(s, id)
    ensures Inv(Answer(t, id, source))
  {
    AnswerLanes(s, t, id, source);
    AnswerKeeps(s, t, id, source);
    hide LanesOk, AnswersOk, Takes;
  }

  lemma FinishVoiceKeeps(s: State, id: Id, generation: nat)
    requires Inv(s)
    ensures Inv(FinishVoiceFailed(s, id, generation))
    ensures !s.closed ==> FinishVoice(s, id, generation) == FinishVoiceFailed(s, id, generation)
    ensures s.closed ==> FinishVoice(s, id, generation) == s && FinishVoiceFailed(s, id, generation) == s
  {
    if id in s.voices && s.voices[id].generation == generation {
      MapDrops(s.voices, id);
      var t := s.(voices := s.voices - {id});
      assert !Answered(s, id) && id !in InHand(s) && Takes(s, t, id);
      hide LanesOk, AnswersOk, Answer, Takes, InHand;
      AnswerAll(s, t, id, VoiceLane(generation));
    }
  }

  lemma FinishCueKeeps(s: State, id: Id, cue: nat)
    requires Inv(s)
    ensures Inv(FinishCue(s, id, cue))
  {
    if !s.closed && id in s.cues && s.cues[id] == cue {
      MapDrops(s.cues, id);
      var t := s.(cues := s.cues - {id});
      assert !Answered(s, id) && id !in InHand(s) && Takes(s, t, id);
      hide LanesOk, AnswersOk, Answer, Takes, InHand;
      AnswerAll(s, t, id, CueLane(cue));
    }
  }

  /** The handler answers the request in its hand. */
  lemma ReplyKeeps(s: State)
    requires Inv(s) && s.frame.Replying?
    ensures Inv(Answer(s.(frame := Idle), s.frame.id, Immediate))
  {
    var id := s.frame.id;
    var t := s.(frame := Idle);
    assert id in InHand(s);
    assert !Answered(s, id) && Takes(s, t, id);
    assert GenerationsOk(t);
    hide LanesOk, AnswersOk, Answer, Takes, InHand, GenerationsOk;
    AnswerAll(s, t, id, Immediate);
  }

  /** Putting a frame down or taking one up that holds no request. */
  lemma EmptyHandKeeps(s: State, s': State)
    requires Inv(s) && s'.voices.Keys == s.voices.Keys && s'.cues == s.cues && s'.completed == s.completed
    requires InHand(s') == {} && !s'.frame.Superseding? && s'.closed == s.closed
    requires s'.replies == s.replies || exists r: Reply :: !r.Terminal? && s'.replies == s.replies + [r]
    requires s'.started == s.started && s'.nextGeneration == s.nextGeneration && s'.nextCue == s.nextCue
    requires forall id :: id in s.voices ==> s'.voices[id].generation == s.voices[id].generation
    ensures Inv(s')
  {
    assert |s'.voices| == |s'.voices.Keys| && |s.voices| == |s.voices.Keys|;
    forall id | Answered(s', id) ensures Answered(s, id) {
      var i :| 0 <= i < |s'.replies| && s'.replies[i].Terminal? && s'.replies[i].id == id;
      assert s'.replies[i] == s.replies[i];
    }
  }

  lemma CloseKeeps(s: State)
    requires Inv(s)
    ensures Inv(CloseAll(s))
  {
    assert forall id :: Answered(CloseAll(s), id) ==> Answered(s, id);
    assert CloseAll(s).voices.Keys == {} && CloseAll(s).cues.Keys == {};
  }

  // ---------------------------------------------------------------- the handler

  /** A new request is taken in hand: it was never used, and there is room for one more. */
  lemma HandKeeps(s: State, s': State)
    requires Inv(s) && s.frame.Idle? && !s.closed && (s'.frame.Replying? || s'.frame.Superseding?)
    requires !Used(s, s'.frame.id) && |s.completed| + |s.voices| + |s.cues| < 4098
    requires s'.frame.Superseding? ==> s.cues.Keys == {}
    requires s' == s.(frame := s'.frame, lifecycle := s'.lifecycle)
    ensures Inv(s')
  {
    assert forall id :: Answered(s', id) ==> Answered(s, id);
  }

  lemma BeginCueKeeps(s: State, id: Id)
    requires Inv(s) && !s.closed && s.cues.Keys == {}
    requires s.frame == Superseding(id) || (s.frame.Idle? && !Used(s, id) && |s.completed| + |s.voices| < 4098)
    ensures Inv(BeginCue(s, id))
  {
    MapGains(s.cues, id, s.nextCue);
    assert forall x :: Answered(BeginCue(s, id), x) ==> Answered(s, x);
    assert !Answered(s, id);
  }

  lemma BeginVoiceKeeps(s: State, id: Id)
    requires Inv(s) && s.frame.Idle? && !s.closed && !Used(s, id) && s.voices.Keys == {}
    requires |s.completed| + |s.cues| < 4098
    ensures Inv(s.(voices := s.voices[id := Voice(s.nextGeneration, false)], nextGeneration := s.nextGeneration + 1,
                   started := s.started + [s.nextGeneration], frame := StartingVoice(id, s.nextGeneration)))
  {
    var s' := s.(voices := s.voices[id := Voice(s.nextGeneration, false)], nextGeneration := s.nextGeneration + 1,
                 started := s.started + [s.nextGeneration], frame := StartingVoice(id, s.nextGeneration));
    MapGains(s.voices, id, Voice(s.nextGeneration, false));
    assert forall x :: Answered(s', x) ==> Answered(s, x);
    assert !Answered(s, id);
  }

  lemma SupersedeKeeps(s: State, id: Id)
    requires Inv(s) && s.frame.Idle? && !s.closed && !Used(s, id) && s.cues.Keys != {}
    requires |s.completed| < MAX_REQUESTS_PER_SESSION
    ensures Inv(FinishCue(s, SomeCue(s), s.cues[SomeCue(s)]).(frame := Superseding(id)))
  {
    var old_ := SomeCue(s);
    var t := FinishCue(s, old_, s.cues[old_]);
    FinishCueKeeps(s, old_, s.cues[old_]);
    MapDrops(s.cues, old_);
    forall x | x in t.cues ensures false { OneKey(s.cues, old_, x); }
    assert t.cues.Keys == {};
    assert |s.completed + {old_}| == |s.completed| + 1;
    hide Inv;
    HandKeeps(t, t.(frame := Superseding(id)));
  }

  lemma AdmitKeeps(s: State, m: Message)
    requires Inv(s) && s.frame.Idle? && !s.closed && !m.InitializedNote? && !m.CancelNote? && !m.Malformed?
    requires !Used(s, IdOf(m)) && |s.completed| < MAX_REQUESTS_PER_SESSION
    ensures Inv(Admit(s, m))
  {
    hide AnswersOk, GenerationsOk;
    assert |s.voices| <= 1 && |s.cues| <= 1;
    var s' := Admit(s, m);
    if m.CueCall? && s.lifecycle.Initialized? && m.valid {
      if s.cues.Keys != {} { SupersedeKeeps(s, m.id); }
      else { BeginCueKeeps(s, m.id); }
    } else if s'.frame.Replying? {
      HandKeeps(s, s');
    } else {
      BeginVoiceKeeps(s, m.id);
    }
  }

  lemma CancelVoiceKeeps(s: State, target: Id)
    requires Inv(s) && s.frame.Idle? && target in s.voices
    ensures Inv(CancelNext(s, target))
  {
    var s' := CancelNext(s, target);
    assert s'.voices.Keys == s.voices.Keys;
    hide Inv, Used;
    EmptyHandKeeps(s, s');
  }

  lemma CancelCueKeeps(s: State, target: Id)
    requires Inv(s) && s.frame.Idle? && target in s.cues
    ensures Inv(FinishCue(s, target, s.cues[target]).(frame := CancellingCue))
  {
    var t := FinishCue(s, target, s.cues[target]);
    assert t.frame.Idle?;
    hide Inv, FinishCue;
    FinishCueKeeps(s, target, s.cues[target]);
    EmptyHandKeeps(t, t.(frame := CancellingCue));
  }

  lemma CancelKeeps(s: State, target: Id)
    requires Inv(s) && s.frame.Idle?
    ensures Inv(CancelNext(s, target))
  {
    hide Inv, FinishCue;
    if target in s.voices { CancelVoiceKeeps(s, target); }
    else if target in s.cues { CancelCueKeeps(s, target); }
  }

  lemma ReceiveKeeps(s: State, m: Message)
    requires Inv(s)
    ensures Inv(ReceiveNext(s, m))
  {
    hide Inv, Admit, CancelNext;
    if s.closed || !s.frame.Idle? {
    } else if m.CancelNote? {
      CancelKeeps(s, m.target);
    } else if m.InitializedNote? || m.Malformed? || Used(s, IdOf(m)) || |s.completed| >= MAX_REQUESTS_PER_SESSION {
      EmptyHandKeeps(s, ReceiveNext(s, m));
    } else {
      AdmitKeeps(s, m);
    }
  }

  lemma IdleKeeps(s: State, replies: seq<Reply>)
    requires Inv(s) && (replies == s.replies || exists r: Reply :: !r.Terminal? && replies == s.replies + [r])
    ensures Inv(s.(frame := Idle, replies := replies))
  {
    hide Inv;
    EmptyHandKeeps(s, s.(frame := Idle, replies := replies));
  }

  lemma ResumeKeeps(s: State, r: Result)
    requires Inv(s)
    ensures Inv(ResumeNext(s, r))
  {
    hide Inv, FinishVoice, FinishVoiceFailed, Answer, CloseAll;
    var idle := s.(frame := Idle);
    IdleKeeps(s, s.replies);
    match s.frame
    case Idle =>
    case Replying(_) => ReplyKeeps(s);
    case Duplicate(id) => IdleKeeps(s, s.replies + [FixedError(id)]);
    case Exhausted(id) =>
      IdleKeeps(s, s.replies + [ExhaustedError(id)]);
      CloseKeeps(idle.(replies := s.replies + [ExhaustedError(id)]));
    case StartingVoice(id, generation) => FinishVoiceKeeps(idle, id, generation);
    case Superseding(_) => hide ResumeNext; SupersedingKeeps(s, r);
    case CancellingCue =>
    case CancellingVoice(id, generation) => FinishVoiceKeeps(idle, id, generation);
  }

  lemma SupersedingKeeps(s: State, r: Result)
    requires Inv(s) && s.frame.Superseding?
    ensures Inv(ResumeNext(s, r))
  {
    EmptyHandKeeps(s, s.(frame := Idle));
    if r.Ok? {
      if s.closed {
        assert forall id :: Answered(ResumeNext(s, r), id) ==> Answered(s, id);
      } else {
        BeginCueKeeps(s, s.frame.id);
        hide Inv, BeginCue;
      }
    }
  }

  /** A cue job that is done is the pending one, or its result is dropped. */
  lemma CueDoneIs(s: State, cue: nat) returns (id: Id)
    ensures CueDoneNext(s, cue) == s || CueDoneNext(s, cue) == FinishCue(s, id, cue)
  {
    hide FinishCue;
    id := "";
    if exists x :: x in s.cues && s.cues[x] == cue {
      id :| id in s.cues && s.cues[id] == cue && CueDoneNext(s, cue) == FinishCue(s, id, cue);
    }
  }

  lemma CueDoneKeeps(s: State, cue: nat)
    requires Inv(s)
    ensures Inv(CueDoneNext(s, cue))
  {
    hide Inv, FinishCue, CueDoneNext;
    var id := CueDoneIs(s, cue);
    FinishCueKeeps(s, id, cue);
  }

  lemma CompleteKeeps(s: State, id: Id, generation: nat)
    requires Inv(s)
    ensures Inv(FinishVoice(s, id, generation))
  {
    hide Inv, FinishVoice, FinishVoiceFailed;
    FinishVoiceKeeps(s, id, generation);
  }

  lemma NextKeeps(s: State, e: Event)
    requires Inv(s)
    ensures Inv(Next(s, e))
  {
    hide Inv, ReceiveNext, ResumeNext, CueDoneNext, FinishVoice, CloseAll;
    match e
    case Receive(m) => ReceiveKeeps(s, m);
    case Resume(r) => ResumeKeeps(s, r);
    case CueDone(cue) => CueDoneKeeps(s, cue);
    case CompleteTurn(id, generation) => CompleteKeeps(s, id, generation);
    case Close => CloseKeeps(s);
  }

  lemma {:induction false} ReachableInv(events: seq<Event>)
    ensures Inv(Run(Initial(), events))
    decreases |events|
  {
    hide Next;
    if events != [] {
      hide Inv;
      ReachableInv(events[..|events| - 1]);
      NextKeeps(Run(Initial(), events[..|events| - 1]), events[|events| - 1]);
    }
  }

  /** Until the connection closes the lanes never share a request id, hold at most one voice call and
      one cue job, and with them at most 4098 ids are ever used up. */
  lemma {:induction false} LanesStayApart(events: seq<Event>)
    ensures var s := Run(Initial(), events);
            && s.voices.Keys !! s.cues.Keys && s.voices.Keys !! s.completed && s.cues.Keys !! s.completed
            && |s.voices| <= 1 && |s.cues| <= 1 && |s.completed| <= 4098
  {
    ReachableInv(events);
    hide Run, AnswersOk, GenerationsOk;
  }

  /** No request is answered twice. */
  lemma OneAnswerEach(events: seq<Event>, i: nat, j: nat)
    requires var replies := Run(Initial(), events).replies;
             i < j < |replies| && replies[i].Terminal? && replies[j].Terminal?
    ensures var s := Run(Initial(), events); s.replies[i].id != s.replies[j].id
  {
    ReachableInv(events);
    hide Run, LanesOk, GenerationsOk;
  }

  /** A request that was answered is never admitted again: until the connection closes its id stays
      used, and a message with that id is only told that it is a duplicate. */
  lemma AnsweredStaysUsed(events: seq<Event>, i: nat, m: Message)
    requires var s := Run(Initial(), events); i < |s.replies| && s.replies[i].Terminal? && !s.closed
    ensures var s := Run(Initial(), events);
            && Used(s, s.replies[i].id)
            && (s.frame.Idle? && !m.InitializedNote? && !m.CancelNote? && IdOf(m) == s.replies[i].id ==>
                  ReceiveNext(s, m) == s.(frame := Duplicate(IdOf(m))))
  {
    ReachableInv(events);
    hide Run, LanesOk, GenerationsOk;
    var s := Run(Initial(), events);
    assert Answered(s, s.replies[i].id);
  }

  /** Voice calls are numbered in strictly increasing order. */
  lemma GenerationsIncrease(events: seq<Event>, i: nat, j: nat)
    requires i < j < |Run(Initial(), events).started|
    ensures var started := Run(Initial(), events).started; started[i] < started[j]
  {
    ReachableInv(events);
    hide Run, LanesOk, AnswersOk;
  }

  // ---------------------------------------------------------------- the end of the ids

  /** The request is neither pending nor in hand, and no answer to it was sent. */
  ghost predicate Unserved(s: State, id: Id) {
    !Used(s, id) && id !in InHand(s) && !Answered(s, id)
  }

  /** The -32005 is on its way to a request that was not admitted, or it was the very last thing sent. */
  ghost predicate ExhaustedOk(s: State) {
    && (s.frame.Exhausted? ==> Unserved(s, s.frame.id))
    && (forall i :: 0 <= i < |s.replies| && s.replies[i].ExhaustedError? ==>
          i == |s.replies| - 1 && s.closed && s.frame.Idle? && !Answered(s, s.replies[i].id))
  }

  predicate SaidExhausted(s: State) {
    exists i :: 0 <= i < |s.replies| && s.replies[i].ExhaustedError?
  }

  /** After the -32005 nothing happens on the connection. */
  lemma ExhaustedIsOver(s: State, e: Event)
    requires LanesOk(s) && s.closed && s.frame.Idle?
    ensures Next(s, e).replies == s.replies && Next(s, e).closed && Next(s, e).frame.Idle?
  {
  }

  lemma FinishVoiceSpares(s: State, id: Id, generation: nat, x: Id)
    requires Unserved(s, x)
    ensures Unserved(FinishVoice(s, id, generation), x)
  {
    var s' := FinishVoice(s, id, generation);
    if s' != s { AnsweredGrows(s, s', id, VoiceLane(generation)); }
    hide Answered;
  }

  lemma FinishCueSpares(s: State, id: Id, cue: nat, x: Id)
    requires Unserved(s, x)
    ensures Unserved(FinishCue(s, id, cue), x)
  {
    var s' := FinishCue(s, id, cue);
    if s' != s { AnsweredGrows(s, s', id, CueLane(cue)); }
    hide Answered;
  }

  /** Whatever interleaves with the send of a -32005 does not serve its request. */
  lemma ExhaustedWaits(s: State, e: Event)
    requires ExhaustedOk(s) && s.frame.Exhausted? && !e.Resume?
    ensures ExhaustedOk(Next(s, e)) && Next(s, e).frame == s.frame
  {
    var id := s.frame.id;
    match e
    case Receive(_) =>
    case CueDone(cue) =>
      hide Unserved, CueDoneNext;
      var x := CueDoneIs(s, cue);
      FinishCueSpares(s, x, cue, id);
    case CompleteTurn(x, generation) => FinishVoiceSpares(s, x, generation, id); hide Unserved;
    case Close => assert Answered(Next(s, e), id) ==> Answered(s, id);
  }

  /** The -32005 has been sent, or its send failed. */
  lemma ExhaustedEnds(s: State, r: Result)
    requires ExhaustedOk(s) && s.frame.Exhausted?
    ensures ExhaustedOk(ResumeNext(s, r))
  {
    var s' := ResumeNext(s, r);
    if r.Ok? {
      forall x | Answered(s', x) ensures Answered(s, x) {
        var i :| 0 <= i < |s'.replies| && s'.replies[i].Terminal? && s'.replies[i].id == x;
        assert s'.replies[i] == s.replies[i];
      }
    }
  }

  /** Nothing was sent, or something other than a -32005. */
  predicate SaysOther(s: State, s': State) {
    s'.replies == s.replies
    || (|s'.replies| == |s.replies| + 1 && !s'.replies[|s.replies|].ExhaustedError?
        && s'.replies == s.replies + [s'.replies[|s.replies|]])
  }

  lemma ReceiveSaysOther(s: State, m: Message)
    ensures SaysOther(s, ReceiveNext(s, m))
  {
    hide Used;
  }

  /** A step that starts to say -32005 has seen a request that was never served. */
  lemma ReceiveExhausts(s: State, m: Message)
    requires Inv(s) && !s.frame.Exhausted?
    ensures ReceiveNext(s, m).frame.Exhausted? ==> Unserved(ReceiveNext(s, m), ReceiveNext(s, m).frame.id)
  {
    var s' := ReceiveNext(s, m);
    hide LanesOk, GenerationsOk;
    if s'.frame.Exhausted? { SameAnswers(s, s'); }
  }

  lemma SameAnswers(s: State, s': State)
    requires s'.replies == s.replies
    ensures forall id :: Answered(s', id) <==> Answered(s, id)
  {
    assert forall id :: Answered(s', id) ==> Answered(s, id);
    assert forall id :: Answered(s, id) ==> Answered(s', id);
  }

  /** No other step says -32005 or starts to. */
  lemma OthersSayOther(s: State, e: Event)
    requires !s.frame.Exhausted? && !e.Receive?
    ensures SaysOther(s, Next(s, e)) && !Next(s, e).frame.Exhausted?
  {
  }

  lemma StartsToExhaust(s: State, e: Event)
    requires Inv(s) && !SaidExhausted(s) && !s.frame.Exhausted?
    ensures ExhaustedOk(Next(s, e))
  {
    if e.Receive? {
      ReceiveSaysOther(s, e.message);
      ReceiveExhausts(s, e.message);
      hide Inv, ReceiveNext, Unserved;
    } else {
      OthersSayOther(s, e);
      hide Inv, Next, Unserved;
    }
  }

  lemma NextExhausted(s: State, e: Event)
    requires Inv(s) && ExhaustedOk(s)
    ensures ExhaustedOk(Next(s, e))
  {
    if SaidExhausted(s) {
      ExhaustedIsOver(s, e);
      SameAnswers(s, Next(s, e));
      hide Next, Answered, Inv;
    } else if s.frame.Exhausted? {
      hide Inv, ExhaustedOk, ResumeNext;
      if e.Resume? { ExhaustedEnds(s, e.result); }
      else { hide Next; ExhaustedWaits(s, e); }
    } else {
      hide Inv, ExhaustedOk, Next;
      StartsToExhaust(s, e);
    }
  }

  lemma {:induction false} ReachableExhausted(events: seq<Event>)
    ensures ExhaustedOk(Run(Initial(), events))
    decreases |events|
  {
    hide Next;
    if events != [] {
      ReachableInv(events[..|events| - 1]);
      ReachableExhausted(events[..|events| - 1]);
      hide Inv, ExhaustedOk;
      NextExhausted(Run(Initial(), events[..|events| - 1]), events[|events| - 1]);
    }
  }

  /** The -32005 answer goes to a request that is not pending and is never answered, and it is the
      last thing sent: besides its answer, an answered request can only get -32600 errors. */
  lemma {:induction false} ExhaustedIsLast(events: seq<Event>, i: nat)
    requires i < |Run(Initial(), events).replies| && Run(Initial(), events).replies[i].ExhaustedError?
    ensures var s := Run(Initial(), events);
            && i == |s.replies| - 1 && s.closed
            && (forall j :: 0 <= j < |s.replies| && s.replies[j].Terminal? ==> s.replies[j].id != s.replies[i].id)
  {
    ReachableExhausted(events);
    hide Run;
    var s := Run(Initial(), events);
    assert !Answered(s, s.replies[i].id);
  }

  /** While the -32005 is being sent, its request is in no lane. */
  lemma ExhaustedWasNotAdmitted(events: seq<Event>)
    requires Run(Initial(), events).frame.Exhausted?
    ensures var s := Run(Initial(), events); !Used(s, s.frame.id) && !Answered(s, s.frame.id)
  {
    ReachableExhausted(events);
    hide Run;
  }

  // ---------------------------------------------------------------- superseded cues

  /** The cue job was started and is not the pending one any more. */
  predicate Gone(s: State, cue: nat) {
    cue < s.nextCue && forall id :: id in s.cues ==> s.cues[id] != cue
  }

  /** No answer of this cue job was sent between `s` and `s'`. */
  predicate Silent(s: State, s': State, cue: nat) {
    && s.replies <= s'.replies
    && forall i :: |s.replies| <= i < |s'.replies| && s'.replies[i].Terminal? ==> s'.replies[i].source != CueLane(cue)
  }

  lemma FinishCueSilent(s: State, id: Id, cue: nat, other: nat)
    requires Gone(s, other)
    ensures Gone(FinishCue(s, id, cue), other) && Silent(s, FinishCue(s, id, cue), other)
  {
  }

  lemma GoneAdmit(s: State, m: Message, cue: nat)
    requires Gone(s, cue) && !m.InitializedNote? && !m.CancelNote?
    ensures Gone(Admit(s, m), cue) && Silent(s, Admit(s, m), cue)
  {
    if s.cues.Keys != {} { FinishCueSilent(s, SomeCue(s), s.cues[SomeCue(s)], cue); }
    hide FinishCue;
  }

  lemma GoneReceive(s: State, m: Message, cue: nat)
    requires Gone(s, cue)
    ensures Gone(ReceiveNext(s, m), cue) && Silent(s, ReceiveNext(s, m), cue)
  {
    if m.CancelNote? {
      if m.target in s.cues { FinishCueSilent(s, m.target, s.cues[m.target], cue); }
      hide FinishCue;
    } else if !m.InitializedNote? {
      GoneAdmit(s, m, cue);
      hide Admit, Used;
    }
  }

  lemma GoneResume(s: State, r: Result, cue: nat)
    requires Gone(s, cue)
    ensures Gone(ResumeNext(s, r), cue) && Silent(s, ResumeNext(s, r), cue)
  {
  }

  lemma GoneCueDone(s: State, c: nat, cue: nat)
    requires Gone(s, cue)
    ensures Gone(CueDoneNext(s, c), cue) && Silent(s, CueDoneNext(s, c), cue)
  {
    hide Gone, Silent, FinishCue, CueDoneNext;
    var id := CueDoneIs(s, c);
    FinishCueSilent(s, id, c, cue);
    StaysSilent(s, cue);
  }

  lemma GoneComplete(s: State, id: Id, generation: nat, cue: nat)
    requires Gone(s, cue)
    ensures Gone(FinishVoice(s, id, generation), cue) && Silent(s, FinishVoice(s, id, generation), cue)
  {
  }

  lemma GoneClose(s: State, cue: nat)
    requires Gone(s, cue)
    ensures Gone(CloseAll(s), cue) && Silent(s, CloseAll(s), cue)
  {
  }

  lemma GoneStays(s: State, e: Event, cue: nat)
    requires Gone(s, cue)
    ensures Gone(Next(s, e), cue) && Silent(s, Next(s, e), cue)
  {
    hide Gone, Silent, ReceiveNext, ResumeNext, CueDoneNext, FinishVoice, CloseAll;
    match e
    case Receive(m) => GoneReceive(s, m, cue);
    case Resume(r) => GoneResume(s, r, cue);
    case CueDone(c) => GoneCueDone(s, c, cue);
    case CompleteTurn(id, generation) => GoneComplete(s, id, generation, cue);
    case Close => GoneClose(s, cue);
  }

  lemma StaysSilent(s: State, cue: nat)
    ensures Silent(s, s, cue)
  {
  }

  lemma {:induction false} LateCueSendsNothing(s: State, events: seq<Event>, cue: nat)
    requires Gone(s, cue)
    ensures Gone(Run(s, events), cue) && Silent(s, Run(s, events), cue)
    decreases |events|
  {
    hide Next;
    if events != [] {
      var before := Run(s, events[..|events| - 1]);
      LateCueSendsNothing(s, events[..|events| - 1], cue);
      GoneStays(before, events[|events| - 1], cue);
      hide Gone;
      forall i | |s.replies| <= i < |Run(s, events).replies| && Run(s, events).replies[i].Terminal?
        ensures Run(s, events).replies[i].source != CueLane(cue)
      {
        assert i < |before.replies| ==> Run(s, events).replies[i] == before.replies[i];
      }
    }
  }

  // ---------------------------------------------------------------- cancellations

  /** A voice call whose cancellation was not asked for yet has not been cancelled. */
  predicate CancelsOk(s: State) {
    && (forall i :: 0 <= i < |s.cancels| ==> s.cancels[i] < s.nextGeneration)
    && (forall i, j :: 0 <= i < j < |s.cancels| ==> s.cancels[i] != s.cancels[j])
    && (forall id :: id in s.voices && !s.voices[id].cancelling ==> s.voices[id].generation !in s.cancels)
    && (forall id :: id in s.voices ==> s.voices[id].generation < s.nextGeneration)
    && (forall a, b :: a in s.voices && b in s.voices && s.voices[a].generation == s.voices[b].generation ==> a == b)
  }

  /** The voice lane only lost calls, and nothing was cancelled. */
  predicate LosesVoices(s: State, s': State) {
    && s'.cancels == s.cancels && s'.nextGeneration == s.nextGeneration
    && forall id :: id in s'.voices ==> id in s.voices && s'.voices[id] == s.voices[id]
  }

  lemma LosesKeeps(s: State, s': State)
    requires CancelsOk(s) && LosesVoices(s, s')
    ensures CancelsOk(s')
  {
  }

  lemma AdmitCancels(s: State, m: Message)
    requires CancelsOk(s) && !m.InitializedNote? && !m.CancelNote?
    ensures CancelsOk(Admit(s, m))
  {
    var s' := Admit(s, m);
    if s'.nextGeneration == s.nextGeneration {
      hide CancelsOk;
      LosesKeeps(s, s');
    } else {
      assert m.VoiceCall? && s.voices.Keys == {};
    }
  }

  lemma CancelCancels(s: State, target: Id)
    requires CancelsOk(s)
    ensures CancelsOk(CancelNext(s, target))
  {
    var s' := CancelNext(s, target);
    if s'.cancels == s.cancels {
      hide CancelsOk;
      LosesKeeps(s, s');
    }
  }

  lemma ReceiveCancels(s: State, m: Message)
    requires CancelsOk(s)
    ensures CancelsOk(ReceiveNext(s, m))
  {
    hide CancelsOk, Admit, CancelNext, Used;
    if m.CancelNote? { CancelCancels(s, m.target); }
    else if !m.InitializedNote? { AdmitCancels(s, m); }
    var s' := ReceiveNext(s, m);
    if LosesVoices(s, s') { LosesKeeps(s, s'); }
  }

  lemma OthersLose(s: State, e: Event)
    requires !e.Receive?
    ensures LosesVoices(s, Next(s, e))
  {
  }

  lemma NextCancels(s: State, e: Event)
    requires CancelsOk(s)
    ensures CancelsOk(Next(s, e))
  {
    if e.Receive? {
      hide CancelsOk, ReceiveNext;
      ReceiveCancels(s, e.message);
    } else {
      OthersLose(s, e);
      hide CancelsOk, LosesVoices, Next;
      LosesKeeps(s, Next(s, e));
    }
  }

  lemma {:induction false} ReachableCancels(events: seq<Event>)
    ensures CancelsOk(Run(Initial(), events))
    decreases |events|
  {
    hide Next, CancelsOk;
    if events == [] {
      assert CancelsOk(Initial()) by { EmptyCancels(); }
    } else {
      ReachableCancels(events[..|events| - 1]);
      NextCancels(Run(Initial(), events[..|events| - 1]), events[|events| - 1]);
    }
  }

  lemma EmptyCancels()
    ensures CancelsOk(Initial())
  {
  }

  /** However often the phone asks, a voice call is handed to the canceller at most once. */
  lemma {:induction false} CancelledAtMostOnce(events: seq<Event>, i: nat, j: nat)
    requires i < j < |Run(Initial(), events).cancels|
    ensures var cancels := Run(Initial(), events).cancels; cancels[i] != cancels[j]
  {
    ReachableCancels(events);
    hide Run;
  }
}
