/** Which Cockpit commands reach the dispatcher and what every event does to a session, over every run. */
module HostCockpitCommands {
  import opened Options
  import opened HostCockpit
  import opened HostCockpitSafety

  // ---------------------------------------------------------------- which commands are dispatched

  /** The item is the interaction that the command names, of this kind, and its time is not over. */
  predicate Names(x: Item, request: RequestId, nonce: nat, kind: Kind, now: int) {
    x.request == request && x.nonce == nonce && x.kind == kind && now < x.expires
  }

  /** A line of 1 to 64 printable ASCII characters, without a space at either end and without markup. */
  predicate PlainLine(text: string) {
    && 1 <= |text| <= 64 && text[0] != ' ' && text[|text| - 1] != ' '
    && forall i :: 0 <= i < |text| ==>
         '\U{20}' <= text[i] <= '\U{7E}' && text[i] != '<' && text[i] != '>' && text[i] != '`'
  }

  /** The session of record `r` takes the command at this time. */
  predicate Takes(r: Record, c: Command, now: int) {
    && r.session == c.session && r.generation == c.generation
    && r.state in {Running, WaitingHuman, Interrupting}
    && match c
       case Steer(_, _, _) => r.state == Running
       case Interrupt(_, _, _) => r.state != Interrupting
       case Answer(_, _, _, q, n, choice) => exists x :: x in r.pending && Names(x, q, n, Question, now) && choice in x.choices
       case Decide(_, _, _, q, n, choice) => exists x :: x in r.pending && Names(x, q, n, Permission, now) && choice in x.choices
       case AnswerText(_, _, _, q, n, text) => PlainLine(text) && exists x :: x in r.pending && Names(x, q, n, TextQuestion, now)
  }

  lemma {:induction false} FoundExactly(pending: seq<Item>, x: Item)
    requires Distinct(pending) && x in pending
    ensures Find(pending, x.request) == Some(x)
  {
    if pending[0] != x {
      assert forall i :: 1 <= i < |pending| ==> pending[i] == pending[1..][i - 1];
      FoundExactly(pending[1..], x);
    }
  }

  lemma ValidatedExactly(r: Record, c: Command, now: int)
    requires RecordOk(r) && r.session == c.session
    ensures Validate(Some(r), c, now).None? <==> Takes(r, c, now)
  {
    hide RequestsOf;
    if Answering(c) { AnswerExactly(r, c, now); }
  }

  lemma AnswerExactly(r: Record, c: Command, now: int)
    requires RecordOk(r) && r.session == c.session && Answering(c)
    ensures Validate(Some(r), c, now).None? <==> Takes(r, c, now)
  {
    hide RequestsOf;
    if Takes(r, c, now) {
      var x :| x in r.pending && Names(x, c.request, c.nonce, KindFor(c), now) && (c.AnswerText? || c.choice in x.choices);
      FoundExactly(r.pending, x);
      hide Distinct;
    }
    if Validate(Some(r), c, now).None? {
      var x := Find(r.pending, c.request).value;
      assert x in r.pending && Names(x, c.request, c.nonce, KindFor(c), now);
    }
  }

  lemma RecordOfExactly(s: State, k: nat)
    requires RecordsOk(s) && k < |s.records|
    ensures RecordOf(s.records, s.records[k].session) == Some(s.records[k])
  {
    hide RecordOk;
  }

  /** What the dispatcher is given: the command for that record, an answer with the backend of its request. */
  function CallTo(r: Record, c: Command): Call {
    match c
    case Steer(_, _, _) => Call(c, r.obj, None)
    case Interrupt(_, _, _) => Call(c, r.obj, None)
    case Answer(_, _, _, q, _, _) => Call(c, r.obj, Some(Backend(Question, q.reference)))
    case Decide(_, _, _, q, _, _) => Call(c, r.obj, Some(Backend(Permission, q.reference)))
    case AnswerText(_, _, _, q, _, _) => Call(c, r.obj, Some(Backend(TextQuestion, q.reference)))
  }

  lemma CallForExactly(s: State, c: Command, k: nat, now: int)
    requires RecordsOk(s) && k < |s.records| && s.records[k].session == c.session
    requires Validate(Some(s.records[k]), c, now).None?
    ensures RecordOf(s.records, c.session) == Some(s.records[k]) && CallFor(s, c) == CallTo(s.records[k], c)
  {
    RecordOfExactly(s, k);
    assert RecordOk(s.records[k]);
    if Answering(c) { ValidatedAnswer(s.records[k], c, now); }
    hide RecordOk, RecordsOk, Validate, RecordOf;
  }

  /** The server may still take commands, and this id is new. */
  predicate Ready(s: State, c: Command) {
    !s.closed && s.inFlight.None? && c.id !in s.commands && |s.commands| < 4096
  }

  /** In every run a command of a new id that comes to an idle open server is dispatched exactly when the
      record of its session takes it: it is of that generation and not ended, a steer finds it running, an
      interrupt running or waiting, and an answer names a pending interaction by request, kind and nonce,
      in time, with a choice it offers or a text that can be reviewed.  Any other such command only uses up
      its id, and all others change nothing. */
  lemma {:induction false} DispatchedExactlyWhen(events: seq<Event>, c: Command, now: int)
    ensures var s := Run(Initial(), events); var s' := Next(s, Command(c, now));
            var used := s.(commands := s.commands + {c.id});
            if !Ready(s, c) then s' == s
            else
              && (forall r :: r in s.records && Takes(r, c, now) ==>
                    s' == used.(inFlight := Some(CallTo(r, c)), calls := s.calls + [CallTo(r, c)]))
              && ((forall r :: r in s.records ==> !Takes(r, c, now)) ==> s' == used)
  {
    var s := Run(Initial(), events);
    ReachableInv(events);
    hide Run, ItemsOk, CallsOk;
    if Ready(s, c) {
      CommandUses(s, c, now);
      forall r | r in s.records && Takes(r, c, now)
        ensures Dispatches(s, c, now) && CallFor(s, c) == CallTo(r, c)
      {
        var k :| 0 <= k < |s.records| && s.records[k] == r;
        TakesIsDispatched(s, c, k, now);
      }
      if Dispatches(s, c, now) { DispatchedIsTaken(s, c, now); }
    }
    hide Dispatches, CallFor, CallTo, Takes, RecordsOk, Validate, RecordOf;
  }

  lemma CommandUses(s: State, c: Command, now: int)
    requires Ready(s, c)
    ensures var used := s.(commands := s.commands + {c.id});
            CommandNext(s, c, now)
            == if Dispatches(s, c, now) then used.(inFlight := Some(CallFor(s, c)), calls := s.calls + [CallFor(s, c)]) else used
  {
    hide Validate, RecordOf;
  }

  lemma TakesIsDispatched(s: State, c: Command, k: nat, now: int)
    requires RecordsOk(s) && Ready(s, c) && k < |s.records| && Takes(s.records[k], c, now)
    ensures Dispatches(s, c, now) && CallFor(s, c) == CallTo(s.records[k], c)
  {
    assert RecordOk(s.records[k]);
    ValidatedExactly(s.records[k], c, now);
    CallForExactly(s, c, k, now) by { hide Takes, RecordOk, RecordOf, CallFor, CallTo; }
    hide RecordsOk, RecordOk, Takes, Validate, CallFor, CallTo;
  }

  lemma DispatchedIsTaken(s: State, c: Command, now: int)
    requires RecordsOk(s) && Dispatches(s, c, now)
    ensures exists r :: r in s.records && Takes(r, c, now)
  {
    hide Takes;
    var at := DispatchedTo(s, c, now);
    assert RecordOk(s.records[at]);
    ValidatedExactly(s.records[at], c, now);
    assert s.records[at] in s.records;
  }

  // ---------------------------------------------------------------- receipts

  /** `after` is `before` without the interaction of `request`. */
  ghost predicate WithoutItem(before: seq<Item>, after: seq<Item>, request: RequestId) {
    if request in RequestsOf(before)
    then exists k :: 0 <= k < |before| && before[k].request == request && after == before[..k] + before[k + 1..]
    else after == before
  }

  lemma {:induction false} NothingToAnswer(pending: seq<Item>, request: RequestId)
    requires forall i :: 0 <= i < |pending| ==> pending[i].request != request
    ensures Unanswered(pending, request) == pending
  {
    if pending != [] {
      var n := |pending| - 1;
      NothingToAnswer(pending[..n], request);
      assert pending == pending[..n] + [pending[n]];
    }
  }

  lemma {:induction false} OneIsAnswered(pending: seq<Item>, k: nat)
    requires Distinct(pending) && k < |pending|
    ensures Unanswered(pending, pending[k].request) == pending[..k] + pending[k + 1..]
  {
    var n := |pending| - 1;
    if k == n {
      NothingToAnswer(pending[..n], pending[k].request);
      assert pending[n + 1..] == [];
    } else {
      OneIsAnswered(pending[..n], k);
      assert pending[..n][..k] == pending[..k] && pending[..n][k + 1..] + [pending[n]] == pending[k + 1..];
    }
  }

  lemma UnansweredIsWithout(pending: seq<Item>, request: RequestId)
    requires Distinct(pending)
    ensures WithoutItem(pending, Unanswered(pending, request), request)
  {
    if request in RequestsOf(pending) {
      var k :| 0 <= k < |pending| && pending[k].request == request;
      OneIsAnswered(pending, k);
    } else {
      NothingToAnswer(pending, request);
    }
  }

  /** What an accepted command makes of its record: an answered interaction leaves with its backend and the
      turn waits on for the rest, an interrupt is under way, and a steer changes nothing. */
  ghost predicate Accepts(r: Record, r': Record, c: Command) {
    match c
    case Steer(_, _, _) => r' == r
    case Interrupt(_, _, _) => r' == r.(state := Interrupting)
    case Answer(_, _, _, q, _, _) => Leaves(r, r', q)
    case Decide(_, _, _, q, _, _) => Leaves(r, r', q)
    case AnswerText(_, _, _, q, _, _) => Leaves(r, r', q)
  }

  ghost predicate Leaves(r: Record, r': Record, q: RequestId) {
    && r' == r.(pending := r'.pending, backends := r.backends - {q}, state := if r'.pending == [] then Running else WaitingHuman)
    && WithoutItem(r.pending, r'.pending, q)
  }

  lemma AnsweredAccepts(r: Record, c: Command)
    requires Distinct(r.pending)
    ensures Accepts(r, Answered(r, c), c)
  {
    hide WithoutItem, Distinct, Unanswered;
    if Answering(c) { UnansweredIsWithout(r.pending, c.request); }
  }

  /** In every run the receipt of a command ends its call.  An accepted command changes the very record it
      was validated against, if that is still there, and no other; any other receipt changes no record. */
  lemma {:induction false} ReceiptsSettle(events: seq<Event>, outcome: Outcome)
    ensures var s := Run(Initial(), events); var s' := Next(s, Receipt(outcome));
            if s.inFlight.None? then s' == s
            else
              var call := s.inFlight.value; var c := call.command;
              && s' == s.(inFlight := None, records := s'.records, accepted := s'.accepted)
              && s'.accepted == s.accepted + (if outcome.Accepted? && (c.Answer? || c.AnswerText? || c.Decide?)
                                              then [(c.request, c.nonce)] else [])
              && |s'.records| == |s.records|
              && forall i :: 0 <= i < |s.records| ==>
                   if outcome == Accepted && s.records[i].obj == call.obj
                   then Accepts(s.records[i], s'.records[i], c) else s'.records[i] == s.records[i]
  {
    var s := Run(Initial(), events);
    ReachableInv(events);
    hide Run, ItemsOk, CallsOk, Accepts, Answered;
    if s.inFlight.Some? && outcome.Accepted? {
      var at := IndexOfObj(s.records, s.inFlight.value.obj);
      if at < |s.records| {
        assert RecordOk(s.records[at]);
        AnsweredAccepts(s.records[at], s.inFlight.value.command);
      }
    }
    hide RecordOk;
  }

  // ---------------------------------------------------------------- sessions

  /** `r` is the record of the session that its key is bound to. */
  predicate Bound(s: State, i: nat, session: SessionId) {
    && i < |s.records| && s.records[i].session == session
    && session.key in s.bindings && s.bindings[session.key] == session
  }

  lemma RecordForExactly(s: State, session: SessionId)
    requires RecordsOk(s)
    ensures forall i: nat :: Bound(s, i, session) <==> RecordFor(s, session) == Some(i)
  {
    hide RecordOk;
  }

  /** The asked interaction fits: choices within bounds, room for it, not asked already, and showable. */
  predicate Askable(r: Record, request: RequestId, reviewable: bool, choices: seq<string>) {
    && (request.kind == Question ==> 1 <= |choices| <= 8) && |r.pending| < 8 && reviewable
    && forall x :: x in r.pending ==> x.request != request
  }

  lemma AskedExactly(s: State, i: nat, session: SessionId, kind: Kind, reference: string, reviewable: bool,
                     choices: seq<string>, now: int)
    requires RecordsOk(s) && Bound(s, i, session)
    ensures var r := s.records[i]; var q := RequestId(session, kind, reference);
            AskNext(s, session, kind, reference, reviewable, choices, now)
            == if Askable(r, q, reviewable, choices)
               then s.(records := s.records[i := r.(pending := r.pending + [Item(q, s.nextNonce, kind, now + 300_000, choices)],
                                                    state := WaitingHuman,
                                                    backends := r.backends[q := Backend(kind, reference)])],
                       nextNonce := s.nextNonce + 1)
               else s
  {
    RecordForExactly(s, session);
    assert RecordOk(s.records[i]);
    RequestsMeans(s.records[i].pending);
    hide RecordsOk, RecordFor, RequestsOf, Distinct;
  }

  lemma UnboundExactly(s: State, session: SessionId)
    requires RecordsOk(s)
    ensures RecordFor(s, session).None? <==> forall i: nat :: !Bound(s, i, session)
  {
    RecordForExactly(s, session);
    var r := RecordFor(s, session);
    hide RecordsOk, Bound, RecordFor;
    assert r.Some? ==> Bound(s, r.value, session);
  }

  /** In every run what the turn does to its own bound session is exactly this: a fitting interaction is
      appended with a fresh nonce and five minutes to live, the session waits, and the backend of the request
      is kept; the end of the turn leaves nothing pending and a state told by the stop reason; a discarded
      session goes with its binding.  A session that is not bound is left alone. */
  lemma {:induction false} TurnsOwnTheirSession(events: seq<Event>, i: nat, session: SessionId, kind: Kind, reference: string,
                                                reviewable: bool, choices: seq<string>, now: int, stop: StopReason)
    ensures var s := Run(Initial(), events);
            var asked := Next(s, Ask(session, kind, reference, reviewable, choices, now));
            var finished, discarded := Next(s, Finish(session, stop)), Next(s, Discard(session));
            && (Bound(s, i, session) ==>
                  var r := s.records[i]; var q := RequestId(session, kind, reference);
                  && asked == (if Askable(r, q, reviewable, choices)
                               then s.(records := s.records[i := r.(pending := r.pending + [Item(q, s.nextNonce, kind, now + 300_000, choices)],
                                                                    state := WaitingHuman,
                                                                    backends := r.backends[q := Backend(kind, reference)])],
                                       nextNonce := s.nextNonce + 1)
                               else s)
                  && finished.records == s.records[i := Record(r.obj, session, r.generation,
                                                               if stop == EndTurn then Completed else if stop == ErrorTurn then Errored else Interrupted,
                                                               [], map[])]
                  && finished == s.(records := finished.records)
                  && discarded == s.(records := s.records[..i] + s.records[i + 1..], bindings := s.bindings - {session.key}))
            && ((forall k: nat :: !Bound(s, k, session)) ==> asked == s && finished == s && discarded == s)
  {
    var s := Run(Initial(), events);
    ReachableInv(events);
    hide Run, ItemsOk, CallsOk, Askable;
    if Bound(s, i, session) {
      AskedExactly(s, i, session, kind, reference, reviewable, choices, now);
      RecordForExactly(s, session);
    } else if forall k: nat :: !Bound(s, k, session) {
      UnboundExactly(s, session);
    }
    hide RecordsOk, RecordFor, Bound;
  }

  /** Reading a snapshot drops the interactions whose time is over, with their backends; a session that
      waited for nothing else runs on. */
  ghost predicate Ages(r: Record, r': Record, now: int) {
    && r' == r.(pending := r'.pending, backends := r'.backends, state := r'.state)
    && (forall x :: x in r'.pending <==> x in r.pending && now < x.expires)
    && (forall q :: q in r'.backends <==> q in r.backends && exists x :: x in r'.pending && x.request == q)
    && (forall q :: q in r'.backends ==> r'.backends[q] == r.backends[q])
    && r'.state == if r.state == WaitingHuman && r'.pending == [] then Running else r.state
  }

  lemma ExpiredAges(r: Record, now: int)
    requires RecordOk(r)
    ensures Ages(r, Expired(r, now), now)
  {
    hide Unexpired, RequestsOf, Distinct;
    var kept := Unexpired(r.pending, now);
    UnexpiredMeans(r.pending, now);
    ExpiredBackends(r, kept);
    RequestsMeans(r.pending);
    RequestsMeans(kept);
    UnexpiredIsAll(r.pending, now);
  }

  lemma UnexpiredLast(pending: seq<Item>, now: int)
    requires pending != []
    ensures var n := |pending| - 1;
            Unexpired(pending, now) == Unexpired(pending[..n], now) + if pending[n].expires > now then [pending[n]] else []
  {
  }

  lemma {:induction false} UnexpiredIsAll(pending: seq<Item>, now: int)
    ensures |Unexpired(pending, now)| <= |pending|
    ensures |Unexpired(pending, now)| == |pending| ==> Unexpired(pending, now) == pending
  {
    if pending != [] {
      hide Unexpired;
      var n := |pending| - 1;
      UnexpiredLast(pending, now);
      UnexpiredIsAll(pending[..n], now);
      assert pending == pending[..n] + [pending[n]];
    }
  }

  /** In every run a snapshot ages each record and changes nothing else. */
  lemma {:induction false} SnapshotsAge(events: seq<Event>, now: int)
    ensures var s := Run(Initial(), events); var s' := Next(s, Snapshot(now));
            && s' == s.(records := s'.records) && |s'.records| == |s.records|
            && forall i :: 0 <= i < |s.records| ==> Ages(s.records[i], s'.records[i], now)
  {
    var s := Run(Initial(), events);
    ReachableInv(events);
    hide Run, ItemsOk, CallsOk, Ages, Expired;
    forall i | 0 <= i < |s.records| ensures Ages(s.records[i], Expired(s.records[i], now), now) {
      assert RecordOk(s.records[i]);
      ExpiredAges(s.records[i], now);
    }
    hide RecordOk;
  }

  // ---------------------------------------------------------------- opening a session

  /** The records and bindings once the oldest ended session gave way, when there were 8. */
  ghost predicate GaveWay(s: State, records: seq<Record>, bindings: map<Key, SessionId>) {
    if |s.records| < 8 || forall r :: r in s.records ==> !IsTerminal(r.state)
    then records == s.records && bindings == s.bindings
    else exists i :: 0 <= i < |s.records| && IsTerminal(s.records[i].state)
                     && (forall j :: 0 <= j < i ==> !IsTerminal(s.records[j].state))
                     && records == s.records[..i] + s.records[i + 1..] && bindings == s.bindings - {s.records[i].session.key}
  }

  lemma RoomGivesWay(s: State)
    requires |s.records| <= 8
    ensures var room := MakeRoom(s.records, s.bindings); GaveWay(s, room.0, room.1)
  {
    var i := FirstTerminal(s.records);
    if |s.records| == 8 && i < 8 {
      var fewer := Without(s.records, i);
      assert MakeRoom(fewer, s.bindings - {s.records[i].session.key}) == (fewer, s.bindings - {s.records[i].session.key});
    }
  }

  /** The record of a new turn takes the place of an older one of the same session, or the last place. */
  predicate Placed(records: seq<Record>, records': seq<Record>, record: Record) {
    if exists i :: 0 <= i < |records| && records[i].session == record.session
    then |records'| == |records|
         && forall i :: 0 <= i < |records| ==> records'[i] == if records[i].session == record.session then record else records[i]
    else records' == records + [record]
  }

  /** In every run a turn opens its session exactly when the server is open, its call is pending, its
      generation is a safe integer and fewer than 8 sessions, or one that has ended, are there; the oldest
      ended session gives way, and the new one runs with nothing pending under its own binding. */
  lemma {:induction false} OpensExactlyWhen(events: seq<Event>, session: SessionId, generation: nat, voicePending: bool)
    ensures var s := Run(Initial(), events); var s' := Next(s, OpenTurn(session, generation, voicePending));
            if !s.closed && voicePending && 1 <= generation <= 9_007_199_254_740_991
               && (|s.records| < 8 || exists r :: r in s.records && IsTerminal(r.state))
            then exists records, bindings ::
                   && GaveWay(s, records, bindings)
                   && Placed(records, s'.records, Record(s.nextObj, session, generation, Running, [], map[]))
                   && s' == s.(records := s'.records, bindings := bindings[session.key := session], nextObj := s.nextObj + 1)
            else s' == s
  {
    var s := Run(Initial(), events);
    ReachableInv(events);
    hide Run, ItemsOk, CallsOk, RecordOk;
    RoomGivesWay(s);
    OpensIn(s, session, generation, voicePending);
    hide GaveWay, Placed, MakeRoom, OpenNext;
  }

  lemma RoomIsEnough(s: State)
    requires |s.records| <= 8
    ensures |MakeRoom(s.records, s.bindings).0| < 8 <==> |s.records| < 8 || exists r :: r in s.records && IsTerminal(r.state)
    ensures |s.records| == 8 && |MakeRoom(s.records, s.bindings).0| == 8 ==> MakeRoom(s.records, s.bindings) == (s.records, s.bindings)
  {
    var i := FirstTerminal(s.records);
    if |s.records| == 8 && i < 8 {
      var fewer := Without(s.records, i);
      assert MakeRoom(fewer, s.bindings - {s.records[i].session.key}).0 == fewer;
      assert s.records[i] in s.records;
    }
  }

  lemma PlacedExactly(records: seq<Record>, record: Record)
    requires Apart(records)
    ensures var i := IndexOf(records, record.session);
            Placed(records, if i < |records| then records[i := record] else records + [record], record)
  {
  }

  lemma OpensIn(s: State, session: SessionId, generation: nat, voicePending: bool)
    requires RecordsOk(s)
    ensures var room := MakeRoom(s.records, s.bindings); var s' := OpenNext(s, session, generation, voicePending);
            if !s.closed && voicePending && 1 <= generation <= 9_007_199_254_740_991
               && (|s.records| < 8 || exists r :: r in s.records && IsTerminal(r.state))
            then && Placed(room.0, s'.records, Record(s.nextObj, session, generation, Running, [], map[]))
                 && s' == s.(records := s'.records, bindings := room.1[session.key := session], nextObj := s.nextObj + 1)
            else s' == s
  {
    hide RecordOk, ItemOk;
    RoomIsEnough(s);
    RoomKeepsApart(s);
    PlacedExactly(MakeRoom(s.records, s.bindings).0, Record(s.nextObj, session, generation, Running, [], map[]));
    hide MakeRoom, Placed, RecordsOk, IsTerminal, IndexOf;
  }

  predicate Apart(records: seq<Record>) {
    forall i, j :: 0 <= i < j < |records| ==> records[i].session != records[j].session
  }

  lemma WithoutOneApart(records: seq<Record>, k: nat)
    requires Apart(records) && k < |records|
    ensures Apart(records[..k] + records[k + 1..])
  {
    var fewer := records[..k] + records[k + 1..];
    assert forall i :: 0 <= i < |fewer| ==> fewer[i] == records[if i < k then i else i + 1];
  }

  lemma RoomKeepsApart(s: State)
    requires Apart(s.records) && |s.records| <= 8
    ensures Apart(MakeRoom(s.records, s.bindings).0)
  {
    hide MakeRoom, Apart;
    RoomGivesWay(s);
    var records := MakeRoom(s.records, s.bindings).0;
    if records != s.records {
      var k :| 0 <= k < |s.records| && records == s.records[..k] + s.records[k + 1..];
      WithoutOneApart(s.records, k);
    }
  }

  /** Once the connection is closed there are no sessions, and nothing opens, asks or is dispatched. */
  lemma {:induction false} ClosedIsEmpty(events: seq<Event>, e: Event)
    ensures var s := Run(Initial(), events); var closed := Next(s, Event.Close);
            && closed == s.(records := [], bindings := map[], commands := {}, closed := true)
            && (!e.Receipt? ==> Next(closed, e) == closed)
            && Next(closed, e).records == []
  {
    hide Run;
  }
}
