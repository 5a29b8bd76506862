/** What the Cockpit sessions promise over every interleaving. */
module HostCockpitSafety {
  import opened Options
  import opened HostCockpit

  // ---------------------------------------------------------------- one record

  predicate Distinct(pending: seq<Item>) {
    forall i, j :: 0 <= i < j < |pending| ==> pending[i].request != pending[j].request
  }

  /** The backends are exactly those of the pending interactions, which belong to this session, are at
      most 8, and are what the turn waits for. */
  predicate RecordOk(r: Record) {
    && Distinct(r.pending) && |r.pending| <= MAX_COCKPIT_PENDING
    && r.backends.Keys == RequestsOf(r.pending)
    && (forall x :: x in r.pending ==> x.request.session == r.session && x.request.kind == x.kind)
    && (forall q :: q in r.backends ==> r.backends[q] == Backend(q.kind, q.reference))
    && (r.state.WaitingHuman? ==> r.pending != [])
  }

  lemma KeepsDistinct(pending: seq<Item>, kept: seq<Item>)
    requires pending != [] && Distinct(pending) && Distinct(kept)
    requires forall x :: x in kept ==> x in pending[..|pending| - 1]
    ensures Distinct(kept + [pending[|pending| - 1]])
  {
    assert forall i :: 0 <= i < |kept| ==> kept[i] in kept;
  }

  lemma {:induction false} UnexpiredMeans(pending: seq<Item>, now: int)
    requires Distinct(pending)
    ensures var kept := Unexpired(pending, now);
            && |kept| <= |pending| && Distinct(kept)
            && (forall x :: x in kept <==> x in pending && x.expires > now)
  {
    if pending != [] {
      var n := |pending| - 1;
      UnexpiredMeans(pending[..n], now);
      var kept := Unexpired(pending[..n], now);
      assert pending == pending[..n] + [pending[n]];
      if pending[n].expires > now { KeepsDistinct(pending, kept); }
    }
  }

  lemma {:induction false} UnansweredMeans(pending: seq<Item>, request: RequestId)
    requires Distinct(pending)
    ensures var kept := Unanswered(pending, request);
            && |kept| <= |pending| && Distinct(kept)
            && (forall x :: x in kept <==> x in pending && x.request != request)
  {
    if pending != [] {
      var n := |pending| - 1;
      UnansweredMeans(pending[..n], request);
      var kept := Unanswered(pending[..n], request);
      assert pending == pending[..n] + [pending[n]];
      if pending[n].request != request { KeepsDistinct(pending, kept); }
    }
  }

  lemma RequestsMeans(pending: seq<Item>)
    ensures forall q :: q in RequestsOf(pending) <==> exists x :: x in pending && x.request == q
  {
    forall q | exists x :: x in pending && x.request == q ensures q in RequestsOf(pending) {
      var x :| x in pending && x.request == q;
      var i :| 0 <= i < |pending| && pending[i] == x;
    }
  }

  lemma ExpiredBackends(r: Record, kept: seq<Item>)
    requires r.backends.Keys == RequestsOf(r.pending) && forall x :: x in kept ==> x in r.pending
    ensures (r.backends - (RequestsOf(r.pending) - RequestsOf(kept))).Keys == RequestsOf(kept)
  {
    RequestsMeans(r.pending);
    RequestsMeans(kept);
    hide RequestsOf;
  }

  lemma ExpiredOk(r: Record, now: int)
    requires RecordOk(r)
    ensures RecordOk(Expired(r, now))
    ensures forall x :: x in Expired(r, now).pending ==> x in r.pending
  {
    hide Unexpired, RequestsOf, Distinct;
    var kept := Unexpired(r.pending, now);
    UnexpiredMeans(r.pending, now);
    ExpiredBackends(r, kept);
  }

  lemma AnsweredBackends(r: Record, kept: seq<Item>, request: RequestId)
    requires r.backends.Keys == RequestsOf(r.pending)
    requires forall x :: x in kept <==> x in r.pending && x.request != request
    ensures (r.backends - {request}).Keys == RequestsOf(kept)
  {
    RequestsMeans(r.pending);
    RequestsMeans(kept);
    hide RequestsOf;
  }

  lemma AnsweredOk(r: Record, c: Command)
    requires RecordOk(r)
    ensures RecordOk(Answered(r, c))
    ensures forall x :: x in Answered(r, c).pending ==> x in r.pending && (Answering(c) ==> x.request != c.request)
  {
    hide Unanswered, RequestsOf, Distinct;
    if Answering(c) {
      UnansweredMeans(r.pending, c.request);
      AnsweredBackends(r, Unanswered(r.pending, c.request), c.request);
    }
  }

  lemma AskedOk(r: Record, item: Item, reference: string)
    requires RecordOk(r) && |r.pending| < MAX_COCKPIT_PENDING && item.request !in r.backends
    requires item.request == RequestId(r.session, item.kind, reference)
    ensures RecordOk(r.(pending := r.pending + [item], state := WaitingHuman,
                        backends := r.backends[item.request := Backend(item.kind, reference)]))
  {
    RequestsGrow(r.pending, item);
    hide RequestsOf;
    assert forall x :: x in r.pending + [item] <==> x in r.pending || x == item;
  }

  lemma RequestsGrow(pending: seq<Item>, item: Item)
    ensures RequestsOf(pending + [item]) == RequestsOf(pending) + {item.request}
    ensures Distinct(pending) && item.request !in RequestsOf(pending) ==> Distinct(pending + [item])
  {
    var more := pending + [item];
    assert forall i :: 0 <= i < |pending| ==> more[i] == pending[i] && pending[i].request in RequestsOf(pending);
    assert more[|pending|] == item;
    assert forall q :: q in RequestsOf(pending) ==> q in RequestsOf(more) by {
      forall q | q in RequestsOf(pending) ensures q in RequestsOf(more) {
        var i :| 0 <= i < |pending| && pending[i].request == q;
        assert more[i].request == q;
      }
    }
  }

  // ---------------------------------------------------------------- all records

  predicate RecordsOk(s: State) {
    && |s.records| <= MAX_COCKPIT_SESSIONS
    && (forall i :: 0 <= i < |s.records| ==> RecordOk(s.records[i]) && s.records[i].obj < s.nextObj)
    && (forall i, j :: 0 <= i < j < |s.records| ==>
          s.records[i].session != s.records[j].session && s.records[i].obj != s.records[j].obj)
  }

  /** Every pending nonce is older than the next one, and no accepted interaction is pending. */
  predicate ItemOk(s: State, r: Record, x: Item) {
    && x.nonce < s.nextNonce && (x.request, x.nonce) !in s.accepted
    && (s.inFlight.Some? && Asks(s.inFlight.value.command, x) ==> r.obj == s.inFlight.value.obj)
  }

  /** The command is an answer to this very interaction. */
  predicate Asks(c: Command, x: Item) {
    Answering(c) && x.request == c.request && x.nonce == c.nonce
  }

  predicate ItemsOk(s: State) {
    && (forall i, x :: 0 <= i < |s.records| && x in s.records[i].pending ==> ItemOk(s, s.records[i], x))
    && (forall a :: a in s.accepted ==> a.1 < s.nextNonce)
    && (s.inFlight.Some? && Answering(s.inFlight.value.command) ==>
          var c := s.inFlight.value.command; c.nonce < s.nextNonce && (c.request, c.nonce) !in s.accepted)
    && (forall i, j :: 0 <= i < j < |s.accepted| ==> s.accepted[i] != s.accepted[j])
  }

  predicate CallsOk(s: State) {
    && (!s.closed ==> forall i :: 0 <= i < |s.calls| ==> s.calls[i].command.id in s.commands)
    && (forall i, j :: 0 <= i < j < |s.calls| ==> s.calls[i].command.id != s.calls[j].command.id)
    && (forall i :: 0 <= i < |s.calls| && Answering(s.calls[i].command) ==> CallOk(s.calls[i]))
  }

  /** An answer that may be dispatched: with the backend of its kind, and a text only if it is exactly
      what can be shown for review. */
  predicate CallOk(call: Call)
    requires Answering(call.command)
  {
    && call.backend == Some(Backend(KindFor(call.command), call.command.request.reference))
    && (call.command.AnswerText? ==> Reviewable(call.command.text))
  }

  predicate Inv(s: State) {
    RecordsOk(s) && ItemsOk(s) && CallsOk(s)
  }

  /** Dropping a record keeps everything. */
  lemma WithoutKeeps(s: State, s': State, i: nat)
    requires RecordsOk(s) && ItemsOk(s) && i < |s.records|
    requires s' == s.(records := Without(s.records, i), bindings := s'.bindings)
    ensures RecordsOk(s') && ItemsOk(s')
  {
    hide RecordOk, ItemOk;
    assert forall k :: 0 <= k < |s'.records| ==> s'.records[k] == s.records[if k < i then k else k + 1];
    forall k, x | 0 <= k < |s'.records| && x in s'.records[k].pending ensures ItemOk(s', s'.records[k], x) {
      assert ItemOk(s, s.records[if k < i then k else k + 1], x);
      ItemOkSame(s, s', s'.records[k], x);
    }
  }

  lemma {:induction false} MakeRoomKeeps(s: State)
    requires RecordsOk(s) && ItemsOk(s)
    ensures var room := MakeRoom(s.records, s.bindings); var s' := s.(records := room.0, bindings := room.1);
            RecordsOk(s') && ItemsOk(s')
    decreases |s.records|
  {
    if |s.records| >= MAX_COCKPIT_SESSIONS && FirstTerminal(s.records) < |s.records| {
      var i := FirstTerminal(s.records);
      var t := s.(records := Without(s.records, i), bindings := s.bindings - {s.records[i].session.key});
      WithoutKeeps(s, t, i);
      hide RecordsOk, ItemsOk;
      MakeRoomKeeps(t);
    }
  }

  /** Room is made only by dropping terminal sessions: every live one stays. */
  lemma {:induction false} LiveSessionsStay(records: seq<Record>, bindings: map<Key, SessionId>, i: nat)
    requires i < |records| && !IsTerminal(records[i].state)
    ensures records[i] in MakeRoom(records, bindings).0
    decreases |records|
  {
    var f := FirstTerminal(records);
    if |records| >= MAX_COCKPIT_SESSIONS && f < |records| {
      var j := if i < f then i else i - 1;
      assert Without(records, f)[j] == records[i];
      LiveSessionsStay(Without(records, f), bindings - {records[f].session.key}, j);
    }
  }

  lemma ItemOkSame(s: State, s': State, r: Record, x: Item)
    requires ItemOk(s, r, x) && s.nextNonce <= s'.nextNonce && s'.accepted == s.accepted && s'.inFlight == s.inFlight
    ensures ItemOk(s', r, x)
  {
  }

  /** Replacing one record by a sound one of the same session and object whose items are old or new
      with a fresh nonce. */
  lemma UpdateKeeps(s: State, s': State, i: nat, r: Record)
    requires RecordsOk(s) && ItemsOk(s) && i < |s.records|
    requires RecordOk(r) && r.session == s.records[i].session && r.obj == s.records[i].obj
    requires s' == s.(records := s.records[i := r], nextNonce := s'.nextNonce) && s.nextNonce <= s'.nextNonce
    requires forall x :: x in r.pending ==> x in s.records[i].pending || (s.nextNonce <= x.nonce < s'.nextNonce)
    ensures RecordsOk(s') && ItemsOk(s')
  {
    hide RecordOk;
    forall k, x | 0 <= k < |s'.records| && x in s'.records[k].pending ensures ItemOk(s', s'.records[k], x) {
      if k != i || x in s.records[i].pending { assert ItemOk(s, s.records[k], x); }
    }
  }

  // ---------------------------------------------------------------- every step

  lemma InsertKeeps(s: State, s': State, record: Record)
    requires RecordsOk(s) && ItemsOk(s) && |s.records| < MAX_COCKPIT_SESSIONS
    requires record.obj == s.nextObj && record.pending == [] && record.backends == map[] && record.state.Running?
    requires var i := IndexOf(s.records, record.session);
             s' == s.(records := if i < |s.records| then s.records[i := record] else s.records + [record],
                      bindings := s'.bindings, nextObj := s.nextObj + 1)
    ensures RecordsOk(s') && ItemsOk(s')
  {
    hide RecordOk, ItemOk, IndexOf;
    var i := IndexOf(s.records, record.session);
    assert forall k :: 0 <= k < |s'.records| ==> s'.records[k] == if k == i then record else s.records[k];
    assert RecordsOk(s') by { EmptyIsOk(record); }
    forall k, x | 0 <= k < |s'.records| && x in s'.records[k].pending ensures ItemOk(s', s'.records[k], x) {
      assert ItemOk(s, s.records[k], x);
      ItemOkSame(s, s', s'.records[k], x);
    }
  }

  lemma EmptyIsOk(r: Record)
    requires r.pending == [] && r.backends == map[] && r.state.Running?
    ensures RecordOk(r)
  {
  }

  lemma OpenKeeps(s: State, session: SessionId, generation: nat, voicePending: bool)
    requires Inv(s)
    ensures Inv(OpenNext(s, session, generation, voicePending))
  {
    var s' := OpenNext(s, session, generation, voicePending);
    if s' != s {
      MakeRoomKeeps(s);
      var room := MakeRoom(s.records, s.bindings);
      var t := s.(records := room.0, bindings := room.1);
      hide RecordsOk, ItemsOk, MakeRoom, IndexOf;
      if |room.0| < MAX_COCKPIT_SESSIONS {
        InsertKeeps(t, s', Record(s.nextObj, session, generation, Running, [], map[]));
      }
    }
  }

  lemma AskKeeps(s: State, session: SessionId, kind: Kind, reference: string, reviewable: bool, choices: seq<string>, now: int)
    requires Inv(s)
    ensures Inv(AskNext(s, session, kind, reference, reviewable, choices, now))
  {
    var s' := AskNext(s, session, kind, reference, reviewable, choices, now);
    if s' != s {
      var i := RecordFor(s, session).value;
      var r := s.records[i];
      var item := Item(RequestId(session, kind, reference), s.nextNonce, kind, now + INTERACTION_TTL_MS, choices);
      AskedOk(r, item, reference);
      assert forall x :: x in r.pending + [item] ==> x in r.pending || x == item;
      hide RecordsOk, ItemsOk, RecordOk, RecordFor;
      UpdateKeeps(s, s', i, s'.records[i]);
    }
  }

  lemma FinishKeeps(s: State, session: SessionId, stop: StopReason)
    requires Inv(s)
    ensures Inv(FinishNext(s, session, stop))
  {
    var i := RecordFor(s, session);
    if i.Some? {
      var s' := FinishNext(s, session, stop);
      assert RecordOk(s'.records[i.value]);
      hide RecordsOk, ItemsOk, RecordOk, RecordFor;
      UpdateKeeps(s, s', i.value, s'.records[i.value]);
    }
  }

  lemma SnapshotKeeps(s: State, now: int)
    requires Inv(s)
    ensures Inv(SnapshotNext(s, now))
  {
    var s' := SnapshotNext(s, now);
    forall i | 0 <= i < |s.records|
      ensures RecordOk(s'.records[i]) && s'.records[i].obj == s.records[i].obj && s'.records[i].session == s.records[i].session
      ensures forall x :: x in s'.records[i].pending ==> x in s.records[i].pending
    {
      ExpiredOk(s.records[i], now);
    }
    hide RecordOk, Expired;
    forall i, x | 0 <= i < |s'.records| && x in s'.records[i].pending ensures ItemOk(s', s'.records[i], x) {
      assert ItemOk(s, s.records[i], x);
    }
  }

  /** A validated answer names an interaction that is pending with this very nonce and has its backend. */
  lemma ValidatedAnswer(r: Record, c: Command, now: int)
    requires RecordOk(r) && Answering(c) && Validate(Some(r), c, now).None?
    ensures exists x :: x in r.pending && Asks(c, x)
    ensures c.request in r.backends && r.backends[c.request] == Backend(KindFor(c), c.request.reference)
    ensures c.request.session == r.session
    ensures c.AnswerText? ==> Reviewable(c.text)
  {
    var x := Find(r.pending, c.request).value;
    RequestsMeans(r.pending);
    hide RequestsOf, Distinct;
    assert x in r.pending && Asks(c, x);
  }

  /** The command passes every check and reaches the dispatcher. */
  predicate Dispatches(s: State, c: Command, now: int) {
    && !s.closed && s.inFlight.None? && c.id !in s.commands && |s.commands| < MAX_COMMANDS
    && RecordOf(s.records, c.session).Some? && Validate(RecordOf(s.records, c.session), c, now).None?
  }

  function CallFor(s: State, c: Command): Call
    requires RecordOf(s.records, c.session).Some?
  {
    var r := RecordOf(s.records, c.session).value;
    Call(c, r.obj, if Answering(c) && c.request in r.backends then Some(r.backends[c.request]) else None)
  }

  lemma CommandShape(s: State, c: Command, now: int)
    ensures var s' := CommandNext(s, c, now);
            if Dispatches(s, c, now)
            then s' == s.(commands := s.commands + {c.id}, inFlight := Some(CallFor(s, c)), calls := s.calls + [CallFor(s, c)])
            else s' == s || s' == s.(commands := s.commands + {c.id})
  {
    hide Validate, RecordOf;
  }

  lemma DispatchItems(s: State, s': State, c: Command, now: int)
    requires Inv(s) && Dispatches(s, c, now)
    requires s' == s.(commands := s'.commands, inFlight := Some(CallFor(s, c)), calls := s'.calls)
    ensures ItemsOk(s')
  {
    hide Validate, IndexOf, Dispatches, RecordOf, CallFor, CallsOk, RecordOk, ItemOk;
    var at := DispatchedTo(s, c, now);
    DispatchNonce(s, c, at, now);
    forall k, x | 0 <= k < |s.records| && x in s.records[k].pending ensures ItemOk(s', s.records[k], x) {
      assert ItemOk(s, s.records[k], x);
      DispatchItem(s, s', c, at, k, x);
    }
  }

  /** The record that a dispatched command was validated against. */
  lemma DispatchedTo(s: State, c: Command, now: int) returns (at: nat)
    requires Dispatches(s, c, now)
    ensures at < |s.records| && s.records[at].session == c.session && CallFor(s, c).obj == s.records[at].obj
    ensures CallFor(s, c).command == c && Validate(Some(s.records[at]), c, now).None?
    ensures RecordOf(s.records, c.session) == Some(s.records[at])
  {
    hide Validate;
    at := IndexOf(s.records, c.session);
  }

  lemma DispatchItem(s: State, s': State, c: Command, at: nat, k: nat, x: Item)
    requires RecordsOk(s) && at < |s.records| && s.records[at].session == c.session
    requires k < |s.records| && x in s.records[k].pending && ItemOk(s, s.records[k], x)
    requires Answering(c) ==> c.request.session == c.session
    requires s'.inFlight.Some? && s'.inFlight.value.command == c && s'.inFlight.value.obj == s.records[at].obj
    requires s'.nextNonce == s.nextNonce && s'.accepted == s.accepted
    ensures ItemOk(s', s.records[k], x)
  {
    hide RecordOk;
    if Asks(c, x) { SessionOf(s.records[k], x); }
  }

  lemma SessionOf(r: Record, x: Item)
    requires RecordOk(r) && x in r.pending
    ensures x.request.session == r.session
  {
  }

  /** An answer that is dispatched is to an interaction that is pending and was never accepted. */
  lemma DispatchNonce(s: State, c: Command, at: nat, now: int)
    requires RecordsOk(s) && ItemsOk(s) && at < |s.records| && Validate(Some(s.records[at]), c, now).None?
    ensures Answering(c) ==>
              c.nonce < s.nextNonce && (c.request, c.nonce) !in s.accepted && c.request.session == s.records[at].session
  {
    hide Validate;
    var r := s.records[at];
    if Answering(c) {
      ValidatedAnswer(r, c, now);
      hide RecordOk;
      var y :| y in r.pending && Asks(c, y);
      assert ItemOk(s, r, y);
    }
  }

  lemma DispatchCalls(s: State, s': State, c: Command, now: int)
    requires Inv(s) && Dispatches(s, c, now)
    requires s' == s.(commands := s.commands + {c.id}, inFlight := s'.inFlight, calls := s.calls + [CallFor(s, c)])
    ensures CallsOk(s')
  {
    hide Validate, IndexOf, RecordOk, ItemsOk, RecordOf, Dispatches, Reviewable;
    var at := DispatchedTo(s, c, now);
    assert RecordOk(s.records[at]);
    if Answering(c) { ValidatedAnswer(s.records[at], c, now); }
    NotYetUsed(s, c, now);
    hide RecordsOk;
  }

  lemma NotYetUsed(s: State, c: Command, now: int)
    requires Dispatches(s, c, now)
    ensures c.id !in s.commands && !s.closed && RecordOf(s.records, c.session).Some?
  {
    hide Validate, RecordOf;
  }

  lemma CommandKeeps(s: State, c: Command, now: int)
    requires Inv(s)
    ensures Inv(CommandNext(s, c, now))
  {
    var s' := CommandNext(s, c, now);
    CommandShape(s, c, now);
    hide CommandNext, CallFor;
    if Dispatches(s, c, now) {
      DispatchItems(s, s', c, now);
      DispatchCalls(s, s', c, now);
      hide ItemsOk, CallsOk, RecordOk, Dispatches;
    } else {
      hide RecordOk, Dispatches;
      assert forall k, x :: 0 <= k < |s.records| && x in s.records[k].pending ==> ItemOk(s, s.records[k], x);
    }
  }

  lemma AnsweredIs(r: Record, c: Command)
    ensures Answered(r, c).obj == r.obj && Answered(r, c).session == r.session
    ensures IsTerminal(Answered(r, c).state) ==> IsTerminal(r.state)
  {
    hide Unanswered;
  }

  /** The records after an accepted command: the validated object, if it is still there, is answered. */
  function AfterReceipt(s: State, call: Call): seq<Record> {
    var i := IndexOfObj(s.records, call.obj);
    if i < |s.records| then s.records[i := Answered(s.records[i], call.command)] else s.records
  }

  lemma AfterReceiptOk(s: State, call: Call)
    requires RecordsOk(s)
    ensures RecordsOk(s.(records := AfterReceipt(s, call)))
  {
    hide RecordOk, Answered, IndexOfObj;
    var i := IndexOfObj(s.records, call.obj);
    if i < |s.records| {
      AnsweredOk(s.records[i], call.command);
      AnsweredIs(s.records[i], call.command);
    }
  }

  lemma AfterReceiptItem(s: State, call: Call, k: nat, x: Item)
    requires RecordsOk(s) && k < |AfterReceipt(s, call)| && x in AfterReceipt(s, call)[k].pending
    ensures k < |s.records| && x in s.records[k].pending && AfterReceipt(s, call)[k].obj == s.records[k].obj
    ensures s.records[k].obj == call.obj ==> !Asks(call.command, x)
  {
    hide RecordOk, Answered, IndexOfObj;
    var i := IndexOfObj(s.records, call.obj);
    assert |AfterReceipt(s, call)| == |s.records|;
    if i < |s.records| {
      AnsweredOk(s.records[i], call.command);
      AnsweredIs(s.records[i], call.command);
    }
  }

  lemma ReceiptShape(s: State, outcome: Outcome)
    requires s.inFlight.Some?
    ensures var call := s.inFlight.value; var c := call.command;
            ReceiptNext(s, outcome)
            == if outcome.Accepted?
               then s.(inFlight := None, records := AfterReceipt(s, call),
                       accepted := if Answering(c) then s.accepted + [(c.request, c.nonce)] else s.accepted)
               else s.(inFlight := None)
  {
    hide Answered, IndexOfObj;
  }

  /** What a receipt accepts is no longer pending. */
  lemma AcceptedNotPending(s: State, call: Call, k: nat, x: Item)
    requires RecordsOk(s) && ItemsOk(s) && s.inFlight == Some(call)
    requires k < |AfterReceipt(s, call)| && x in AfterReceipt(s, call)[k].pending
    ensures x.nonce < s.nextNonce && (x.request, x.nonce) !in s.accepted && !Asks(call.command, x)
  {
    AfterReceiptItem(s, call, k, x);
    hide RecordsOk, AfterReceipt;
    assert ItemOk(s, s.records[k], x);
  }

  lemma AcceptedItems(s: State, s': State, call: Call)
    requires RecordsOk(s) && ItemsOk(s) && s.inFlight == Some(call)
    requires var c := call.command;
             s' == s.(inFlight := None, records := AfterReceipt(s, call),
                      accepted := if Answering(c) then s.accepted + [(c.request, c.nonce)] else s.accepted)
    ensures ItemsOk(s')
  {
    forall k, x | 0 <= k < |s'.records| && x in s'.records[k].pending ensures ItemOk(s', s'.records[k], x) {
      AcceptedNotPending(s, call, k, x);
    }
    hide RecordsOk, AfterReceipt, ItemOk;
  }

  lemma IdleItems(s: State)
    requires ItemsOk(s)
    ensures ItemsOk(s.(inFlight := None))
  {
    assert forall k, x :: 0 <= k < |s.records| && x in s.records[k].pending ==> ItemOk(s, s.records[k], x);
  }

  lemma ReceiptKeeps(s: State, outcome: Outcome)
    requires Inv(s)
    ensures Inv(ReceiptNext(s, outcome))
  {
    if s.inFlight.Some? {
      var call := s.inFlight.value;
      var s' := ReceiptNext(s, outcome);
      ReceiptShape(s, outcome);
      hide AfterReceipt, ReceiptNext, CallsOk, ItemsOk;
      SameCalls(s, s');
      if outcome.Accepted? {
        AcceptedItems(s, s', call);
        AfterReceiptOk(s, call);
      } else {
        IdleItems(s);
      }
    }
  }

  lemma SameCalls(s: State, s': State)
    requires CallsOk(s) && s'.calls == s.calls && s'.commands == s.commands && s'.closed == s.closed
    ensures CallsOk(s')
  {
  }

  lemma NextKeeps(s: State, e: Event)
    requires Inv(s)
    ensures Inv(Next(s, e))
  {
    hide Inv, OpenNext, AskNext, DiscardNext, FinishNext, SnapshotNext, CommandNext, ReceiptNext;
    match e
    case OpenTurn(session, generation, voicePending) => OpenKeeps(s, session, generation, voicePending);
    case Ask(session, kind, reference, reviewable, choices, now) =>
      AskKeeps(s, session, kind, reference, reviewable, choices, now);
    case Discard(session) => DiscardKeeps(s, session);
    case Finish(session, stop) => FinishKeeps(s, session, stop);
    case Snapshot(now) => SnapshotKeeps(s, now);
    case Command(c, now) => CommandKeeps(s, c, now);
    case Receipt(outcome) => ReceiptKeeps(s, outcome);
    case Close => CloseKeeps(s);
  }

  lemma DiscardKeeps(s: State, session: SessionId)
    requires Inv(s)
    ensures Inv(DiscardNext(s, session))
  {
    hide RecordsOk, ItemsOk, RecordFor;
    var i := RecordFor(s, session);
    if i.Some? && i.value < |s.records| { WithoutKeeps(s, DiscardNext(s, session), i.value); }
  }

  lemma CloseKeeps(s: State)
    requires Inv(s)
    ensures Inv(Next(s, Event.Close))
  {
    hide RecordOk, ItemOk;
  }

  lemma {:induction false} ReachableInv(events: seq<Event>)
    ensures Inv(Run(Initial(), events))
    decreases |events|
  {
    hide Next;
    if events != [] {
      hide Inv;
      ReachableInv(events[..|events| - 1]);
      NextKeeps(Run(Initial(), events[..|events| - 1]), events[|events| - 1]);
    }
  }

  // ---------------------------------------------------------------- every run

  /** In every session the backends are exactly the pending requests, all different and at most 8; a
      session that waits for the wearer has something pending; and there are at most 8 sessions. */
  lemma BackendsMatchPending(events: seq<Event>, i: nat)
    requires i < |Run(Initial(), events).records|
    ensures var s := Run(Initial(), events); var r := s.records[i];
            && r.backends.Keys == RequestsOf(r.pending) && Distinct(r.pending) && |r.pending| <= 8
            && (r.state.WaitingHuman? ==> r.pending != []) && |s.records| <= 8
  {
    ReachableInv(events);
    hide Run, ItemsOk, CallsOk;
    assert RecordOk(Run(Initial(), events).records[i]);
  }

  /** Each command id reaches the dispatcher at most once. */
  lemma DispatchedAtMostOnce(events: seq<Event>, i: nat, j: nat)
    requires i < j < |Run(Initial(), events).calls|
    ensures var calls := Run(Initial(), events).calls; calls[i].command.id != calls[j].command.id
  {
    ReachableInv(events);
    hide Run, ItemsOk, RecordsOk;
  }

  /** An answer always reaches the dispatcher together with the backend of its request, and a text answer
      only as text that could be reviewed unchanged. */
  lemma DispatchedWithBackend(events: seq<Event>, i: nat)
    requires var calls := Run(Initial(), events).calls; i < |calls| && Answering(calls[i].command)
    ensures var call := Run(Initial(), events).calls[i];
            && call.backend == Some(Backend(KindFor(call.command), call.command.request.reference))
            && (call.command.AnswerText? ==> Reviewable(call.command.text))
  {
    ReachableInv(events);
    hide Run, ItemsOk, RecordsOk, Reviewable;
    assert CallOk(Run(Initial(), events).calls[i]);
  }

  /** Each interaction, a request with its nonce, is accepted at most once. */
  lemma AcceptedAtMostOnce(events: seq<Event>, i: nat, j: nat)
    requires i < j < |Run(Initial(), events).accepted|
    ensures var s := Run(Initial(), events); s.accepted[i] != s.accepted[j]
  {
    ReachableInv(events);
    hide Run, CallsOk, RecordsOk;
  }

  /** Once accepted, an interaction is not pending in any session. */
  lemma AcceptedIsNotPending(events: seq<Event>, i: nat, k: nat, x: Item)
    requires var s := Run(Initial(), events); i < |s.accepted| && k < |s.records| && x in s.records[k].pending
    ensures (x.request, x.nonce) != Run(Initial(), events).accepted[i]
  {
    ReachableInv(events);
    hide Run, CallsOk, RecordsOk;
    var s := Run(Initial(), events);
    assert ItemOk(s, s.records[k], x);
  }

  // ---------------------------------------------------------------- terminal sessions

  /** The event asks something of the finished turn `r`: nothing here forbids it, the adapter checks
      that the turn is unfinished first. */
  predicate Reopens(s: State, e: Event, r: Record) {
    && e.Ask? && e.session == r.session && RecordFor(s, r.session).Some? && e.reviewable
    && (e.kind.Question? ==> 1 <= |e.choices| <= 8) && |r.pending| < MAX_COCKPIT_PENDING
    && RequestId(e.session, e.kind, e.reference) !in r.backends
  }

  /** The event ends a command on `r` that was validated before `r` became terminal. */
  predicate EndsLate(s: State, e: Event, r: Record) {
    && e.Receipt? && e.outcome.Accepted? && s.inFlight.Some? && s.inFlight.value.obj == r.obj
    && !s.inFlight.value.command.Steer?
  }

  predicate LiveAs(s: State, obj: nat) {
    exists k :: 0 <= k < |s.records| && s.records[k].obj == obj && !IsTerminal(s.records[k].state)
  }

  lemma {:induction false} RoomIsPart(records: seq<Record>, bindings: map<Key, SessionId>)
    ensures forall x :: x in MakeRoom(records, bindings).0 ==> x in records
    decreases |records|
  {
    var f := FirstTerminal(records);
    if |records| >= MAX_COCKPIT_SESSIONS && f < |records| {
      RoomIsPart(Without(records, f), bindings - {records[f].session.key});
    }
  }

  lemma OpenKeepsTerminal(s: State, session: SessionId, generation: nat, voicePending: bool, i: nat)
    requires Inv(s) && i < |s.records| && IsTerminal(s.records[i].state)
    ensures !LiveAs(OpenNext(s, session, generation, voicePending), s.records[i].obj)
  {
    var s' := OpenNext(s, session, generation, voicePending);
    var room := MakeRoom(s.records, s.bindings).0;
    RoomIsPart(s.records, s.bindings);
    hide MakeRoom, RecordOk, ItemsOk, CallsOk, IsTerminal;
    forall k | 0 <= k < |s'.records| && s'.records[k].obj == s.records[i].obj ensures s'.records[k] == s.records[i] {
      assert s'.records[k] in s.records by {
        if s' != s { assert k < |room| && s'.records[k] == room[k] && room[k] in room; }
      }
      var j :| 0 <= j < |s.records| && s.records[j] == s'.records[k];
      assert j == i;
    }
  }

  lemma UpdatedLive(s: State, s': State, i: nat, j: nat)
    requires RecordsOk(s) && i < |s.records| && j < |s.records| && IsTerminal(s.records[i].state)
    requires |s'.records| == |s.records| && s'.records == s.records[j := s'.records[j]] && s'.records[j].obj == s.records[j].obj
    ensures LiveAs(s', s.records[i].obj) <==> j == i && !IsTerminal(s'.records[i].state)
  {
    hide RecordOk, IsTerminal;
    if j == i && !IsTerminal(s'.records[i].state) { assert s'.records[i].obj == s.records[i].obj; }
  }

  lemma SameLive(s: State, i: nat)
    requires RecordsOk(s) && i < |s.records| && IsTerminal(s.records[i].state)
    ensures !LiveAs(s, s.records[i].obj)
  {
    hide RecordOk, IsTerminal;
  }

  lemma AskTerminal(s: State, e: Event, i: nat)
    requires Inv(s) && i < |s.records| && IsTerminal(s.records[i].state) && e.Ask?
    ensures LiveAs(Next(s, e), s.records[i].obj) <==> Reopens(s, e, s.records[i])
  {
    var s' := Next(s, e);
    var j := RecordFor(s, e.session);
    SameLive(s, i);
    hide RecordOk, ItemsOk, CallsOk;
    if s' != s {
      assert s'.records[j.value].obj == s.records[j.value].obj && s'.records[j.value].state.WaitingHuman?;
      UpdatedLive(s, s', i, j.value);
      assert s.records[j.value].session == e.session;
      if s.records[i].session == e.session { assert i == j.value; }
    }
    hide LiveAs;
  }

  lemma ReceiptTerminal(s: State, e: Event, i: nat)
    requires Inv(s) && i < |s.records| && IsTerminal(s.records[i].state) && e.Receipt?
    ensures LiveAs(Next(s, e), s.records[i].obj) <==> EndsLate(s, e, s.records[i])
  {
    var s' := Next(s, e);
    SameLive(s, i);
    hide RecordOk, ItemsOk, CallsOk, LiveAs;
    if s.inFlight.Some? && e.outcome.Accepted? {
      var j := IndexOfObj(s.records, s.inFlight.value.obj);
      if j < |s.records| {
        UpdatedLive(s, s', i, j);
      } else {
        assert s'.records == s.records;
        assert LiveAs(s', s.records[i].obj) == LiveAs(s, s.records[i].obj) by { SameRecordsLive(s, s', s.records[i].obj); }
      }
    } else {
      SameRecordsLive(s, s', s.records[i].obj);
    }
  }

  lemma SameRecordsLive(s: State, s': State, obj: nat)
    requires s'.records == s.records
    ensures LiveAs(s', obj) == LiveAs(s, obj)
  {
  }

  lemma FinishTerminal(s: State, session: SessionId, stop: StopReason, i: nat)
    requires RecordsOk(s) && i < |s.records| && IsTerminal(s.records[i].state)
    ensures !LiveAs(FinishNext(s, session, stop), s.records[i].obj)
  {
    var s' := FinishNext(s, session, stop);
    SameLive(s, i);
    var j := RecordFor(s, session);
    hide RecordsOk, LiveAs, RecordFor;
    if j.Some? { UpdatedLive(s, s', i, j.value); }
  }

  lemma DiscardTerminal(s: State, session: SessionId, i: nat)
    requires RecordsOk(s) && i < |s.records| && IsTerminal(s.records[i].state)
    ensures !LiveAs(DiscardNext(s, session), s.records[i].obj)
  {
    hide RecordsOk, RecordFor, IsTerminal;
    var s' := DiscardNext(s, session);
    SameLive(s, i);
    var f := RecordFor(s, session);
    if f.Some? { assert forall k :: 0 <= k < |s'.records| ==> s'.records[k] == s.records[if k < f.value then k else k + 1]; }
  }

  lemma SnapshotTerminal(s: State, now: int, i: nat)
    requires RecordsOk(s) && i < |s.records| && IsTerminal(s.records[i].state)
    ensures !LiveAs(SnapshotNext(s, now), s.records[i].obj)
  {
    SameLive(s, i);
    hide RecordsOk, Unexpired;
  }

  lemma OtherTerminal(s: State, e: Event, i: nat)
    requires Inv(s) && i < |s.records| && IsTerminal(s.records[i].state)
    requires e.Discard? || e.Finish? || e.Snapshot? || e.Command? || e.Close?
    ensures !LiveAs(Next(s, e), s.records[i].obj)
  {
    SameLive(s, i);
    hide RecordsOk, ItemsOk, CallsOk, FinishNext, DiscardNext, SnapshotNext, IsTerminal;
    match e
    case Finish(session, stop) => FinishTerminal(s, session, stop, i);
    case Discard(session) => DiscardTerminal(s, session, i);
    case Snapshot(now) => SnapshotTerminal(s, now, i);
    case Command(c, now) => CommandShape(s, c, now); hide CommandNext, Dispatches; SameRecordsLive(s, Next(s, e), s.records[i].obj);
    case Close =>
  }

  /** A terminal session leaves its state exactly when it is asked something anew, or when a command that
      was validated before it ended is accepted after. */
  lemma TerminalStaysExactlyWhen(s: State, e: Event, i: nat)
    requires Inv(s) && i < |s.records| && IsTerminal(s.records[i].state)
    ensures LiveAs(Next(s, e), s.records[i].obj) <==> Reopens(s, e, s.records[i]) || EndsLate(s, e, s.records[i])
  {
    hide Inv, LiveAs;
    if e.OpenTurn? { OpenKeepsTerminal(s, e.session, e.generation, e.voicePending, i); }
    else if e.Ask? { AskTerminal(s, e, i); }
    else if e.Receipt? { ReceiptTerminal(s, e, i); }
    else { OtherTerminal(s, e, i); }
  }

  /** Finished turns are asked nothing, and no receipt comes after the end of its turn. */
  predicate Guarded(s: State, e: Event) {
    forall i :: 0 <= i < |s.records| && IsTerminal(s.records[i].state) ==>
      !Reopens(s, e, s.records[i]) && !EndsLate(s, e, s.records[i])
  }

  predicate Present(s: State, obj: nat) {
    exists k :: 0 <= k < |s.records| && s.records[k].obj == obj
  }

  /** The records come from the old ones: same object, or a new one. */
  lemma OpenStems(s: State, session: SessionId, generation: nat, voicePending: bool, k: nat)
    requires k < |OpenNext(s, session, generation, voicePending).records|
    ensures var x := OpenNext(s, session, generation, voicePending).records[k]; x.obj == s.nextObj || x in s.records
  {
    RoomIsPart(s.records, s.bindings);
    var room := MakeRoom(s.records, s.bindings).0;
    hide MakeRoom, IndexOf;
    assert forall j :: 0 <= j < |room| ==> room[j] in room;
  }

  lemma SameObjects(s: State, e: Event)
    requires e.Ask? || e.Finish? || e.Snapshot? || e.Command? || e.Receipt?
    ensures var s' := Next(s, e);
            |s'.records| == |s.records| && forall k :: 0 <= k < |s.records| ==> s'.records[k].obj == s.records[k].obj
  {
    hide Unanswered, Unexpired, RecordFor, IndexOf, Find;
    if e.Command? { CommandShape(s, e.command, e.now); hide CommandNext, Dispatches; }
    else if e.Receipt? {
      if s.inFlight.Some? { ReceiptShape(s, e.outcome); }
      hide ReceiptNext;
    }
  }

  lemma PresentBefore(s: State, e: Event, obj: nat)
    requires obj < s.nextObj && Present(Next(s, e), obj)
    ensures Present(s, obj)
  {
    var s' := Next(s, e);
    var k :| 0 <= k < |s'.records| && s'.records[k].obj == obj;
    if e.OpenTurn? {
      OpenStems(s, e.session, e.generation, e.voicePending, k);
      hide OpenNext;
      var j :| 0 <= j < |s.records| && s.records[j] == s'.records[k];
    } else if e.Discard? {
      hide RecordFor;
      if s' != s {
        var f := RecordFor(s, e.session).value;
        assert s'.records[k] == s.records[if k < f then k else k + 1];
      }
    } else if !e.Close? {
      SameObjects(s, e);
      hide Next;
      assert s.records[k].obj == obj;
    }
  }

  lemma ObjectsGrow(s: State, e: Event)
    ensures s.nextObj <= Next(s, e).nextObj
  {
    hide Validate, MakeRoom, IndexOf, Answered;
  }

  /** A guarded event does not bring a session that has ended back. */
  lemma GuardedStays(s: State, e: Event, obj: nat)
    requires Inv(s) && obj < s.nextObj && !LiveAs(s, obj) && Guarded(s, e)
    ensures !LiveAs(Next(s, e), obj)
  {
    hide Inv, Next;
    if LiveAs(Next(s, e), obj) {
      assert Present(Next(s, e), obj);
      PresentBefore(s, e, obj);
      var k :| 0 <= k < |s.records| && s.records[k].obj == obj;
      TerminalStaysExactlyWhen(s, e, k);
    }
  }

  /** From the `n`-th event on, no event of the run asks a finished turn anew or ends a command after
      its turn. */
  predicate GuardedFrom(events: seq<Event>, n: nat) {
    forall k :: n <= k < |events| ==> Guarded(Run(Initial(), events[..k]), events[k])
  }

  lemma PrefixGuarded(events: seq<Event>, n: nat)
    requires |events| > 0 && GuardedFrom(events, n)
    ensures GuardedFrom(events[..|events| - 1], n)
  {
    hide Run, Guarded;
    var before := events[..|events| - 1];
    forall k | n <= k < |before| ensures Guarded(Run(Initial(), before[..k]), before[k]) {
      assert before[..k] == events[..k] && before[k] == events[k];
    }
  }

  lemma {:induction false} TerminalStays(events: seq<Event>, n: nat, obj: nat)
    requires n <= |events| && GuardedFrom(events, n)
    requires obj < Run(Initial(), events[..n]).nextObj && !LiveAs(Run(Initial(), events[..n]), obj)
    ensures obj < Run(Initial(), events).nextObj && !LiveAs(Run(Initial(), events), obj)
    decreases |events|
  {
    hide Run, Next, Guarded, LiveAs, Inv;
    if n == |events| {
      assert events[..n] == events;
    } else {
      var last := |events| - 1;
      RunLast(events);
      assert events[..last][..n] == events[..n];
      PrefixGuarded(events, n);
      TerminalStays(events[..last], n, obj);
      ReachableInv(events[..last]);
      GuardedStays(Run(Initial(), events[..last]), events[last], obj);
      ObjectsGrow(Run(Initial(), events[..last]), events[last]);
    }
  }

  /** Over every guarded run a session that has ended never becomes anything but ended. */
  lemma {:induction false} TerminalInEveryRun(events: seq<Event>, n: nat, i: nat)
    requires n <= |events| && GuardedFrom(events, n)
    requires var s := Run(Initial(), events[..n]); i < |s.records| && IsTerminal(s.records[i].state)
    ensures !LiveAs(Run(Initial(), events), Run(Initial(), events[..n]).records[i].obj)
  {
    var s := Run(Initial(), events[..n]);
    ReachableInv(events[..n]);
    SameLive(s, i);
    assert RecordOk(s.records[i]);
    hide Run, GuardedFrom, LiveAs;
    TerminalStays(events, n, s.records[i].obj);
  }

  // ---------------------------------------------------------------- the guard of the adapter

  /** The adapter asks nothing of a turn it has finished (adapter.py checks that the turn is unfinished),
      and its dispatcher does not suspend, so the receipt of a command is the very next event. */
  predicate FollowsAdapter(events: seq<Event>) {
    && (forall i, j :: 0 <= i < j < |events| && events[i].Finish? && events[j].Ask? ==> events[i].session != events[j].session)
    && (forall j :: 0 <= j < |events| - 1 && events[j].Command? ==> events[j + 1].Receipt?)
  }

  /** The turn of this session was finished in the run. */
  predicate WasFinished(events: seq<Event>, session: SessionId) {
    exists i :: 0 <= i < |events| && events[i].Finish? && events[i].session == session
  }

  /** A terminal record was terminal before, or this event finished it. */
  predicate EndsBy(s: State, e: Event, r: Record) {
    IsTerminal(r.state) ==>
      (e.Finish? && e.session == r.session)
      || exists k :: 0 <= k < |s.records| && s.records[k].session == r.session && IsTerminal(s.records[k].state)
  }

  lemma OpenEndsBy(s: State, e: Event, k: nat)
    requires e.OpenTurn? && k < |Next(s, e).records|
    ensures EndsBy(s, e, Next(s, e).records[k])
  {
    var r := Next(s, e).records[k];
    RoomIsPart(s.records, s.bindings);
    var room := MakeRoom(s.records, s.bindings).0;
    hide MakeRoom, IndexOf;
    assert forall j :: 0 <= j < |room| ==> room[j] in room;
    if IsTerminal(r.state) { assert r in s.records; }
  }

  lemma ExpiredSession(r: Record, now: int)
    ensures Expired(r, now).session == r.session && (IsTerminal(Expired(r, now).state) ==> IsTerminal(r.state))
  {
  }

  lemma ReceiptEndsBy(s: State, e: Event, k: nat)
    requires e.Receipt? && k < |Next(s, e).records|
    ensures EndsBy(s, e, Next(s, e).records[k])
  {
    if s.inFlight.Some? {
      ReceiptShape(s, e.outcome);
      if k < |s.records| { AnsweredIs(s.records[k], s.inFlight.value.command); }
    }
    hide ReceiptNext, Answered, IsTerminal, IndexOfObj;
  }

  lemma NextEndsBy(s: State, e: Event, k: nat)
    requires k < |Next(s, e).records|
    ensures EndsBy(s, e, Next(s, e).records[k])
  {
    var s' := Next(s, e);
    if e.OpenTurn? { OpenEndsBy(s, e, k); hide EndsBy, OpenNext; }
    else if e.Discard? {
      var f := RecordFor(s, e.session);
      hide RecordFor, IsTerminal;
      if f.Some? { assert s'.records[k] == s.records[k] || s'.records[k] == s.records[k + 1]; }
    } else if e.Snapshot? {
      ExpiredSession(s.records[k], e.now);
      hide Expired, IsTerminal;
    } else if e.Command? {
      CommandShape(s, e.command, e.now);
      hide CommandNext, Dispatches, IsTerminal;
    } else if e.Receipt? {
      ReceiptEndsBy(s, e, k);
      hide EndsBy, ReceiptNext;
    } else {
      hide IndexOf;
    }
  }

  /** Every terminal record belongs to a session that was finished. */
  lemma {:induction false} TerminalWasFinished(events: seq<Event>, k: nat)
    requires k < |Run(Initial(), events).records| && IsTerminal(Run(Initial(), events).records[k].state)
    ensures WasFinished(events, Run(Initial(), events).records[k].session)
    decreases |events|
  {
    assert events != [];
    var last := |events| - 1;
    var s := Run(Initial(), events[..last]);
    NextEndsBy(s, events[last], k);
    var r := Run(Initial(), events).records[k];
    hide Next, Run, IsTerminal;
    if events[last].Finish? && events[last].session == r.session {
      assert WasFinished(events, r.session);
    } else {
      var j :| 0 <= j < |s.records| && s.records[j].session == r.session && IsTerminal(s.records[j].state);
      TerminalWasFinished(events[..last], j);
      var i :| 0 <= i < last && events[..last][i].Finish? && events[..last][i].session == r.session;
      assert events[i].Finish? && events[i].session == r.session;
    }
  }

  /** The command in flight is the last event, and its record has not ended. */
  predicate FlightOk(s: State, e: Event) {
    s.inFlight.Some? ==>
      e.Command? && forall k :: 0 <= k < |s.records| && s.records[k].obj == s.inFlight.value.obj ==> !IsTerminal(s.records[k].state)
  }

  lemma DispatchIsLive(s: State, c: Command, now: int)
    requires Inv(s) && s.inFlight.None?
    ensures FlightOk(CommandNext(s, c, now), Command(c, now))
  {
    var s' := CommandNext(s, c, now);
    CommandShape(s, c, now);
    hide CommandNext, Find, RecordOk, ItemsOk, CallsOk;
    if Dispatches(s, c, now) {
      var at := IndexOf(s.records, c.session);
      assert s'.inFlight.value.obj == s.records[at].obj && !IsTerminal(s.records[at].state);
    }
  }

  lemma OnlyCommandsFly(s: State, e: Event)
    requires s.inFlight.None? && !e.Command?
    ensures Next(s, e).inFlight.None?
  {
    hide IndexOf, MakeRoom;
  }

  lemma ReceiptLands(s: State, outcome: Outcome)
    ensures ReceiptNext(s, outcome).inFlight.None?
  {
  }

  lemma {:induction false} FlightIsLast(events: seq<Event>)
    requires events != [] && FollowsAdapter(events)
    ensures FlightOk(Run(Initial(), events), events[|events| - 1])
    decreases |events|
  {
    hide Inv, Run, Next, FlightOk, FollowsAdapter;
    var last := |events| - 1;
    var before := events[..last];
    var s := Run(Initial(), before);
    ReachableInv(before);
    RunLast(events);
    if before == [] {
      RunNothing();
      FlightStarts(s, events[last]);
    } else {
      AdapterBefore(events);
      FlightIsLast(before);
      FlightGoesOn(s, events[last - 1], events[last]);
    }
  }

  lemma AdapterBefore(events: seq<Event>)
    requires |events| > 1 && FollowsAdapter(events)
    ensures FollowsAdapter(events[..|events| - 1])
    ensures events[|events| - 2].Command? ==> events[|events| - 1].Receipt?
  {
  }

  lemma FlightStarts(s: State, e: Event)
    requires Inv(s) && s.inFlight.None?
    ensures FlightOk(Next(s, e), e)
  {
    hide Inv, CommandNext;
    if e.Command? { DispatchIsLive(s, e.command, e.now); } else { hide Next; OnlyCommandsFly(s, e); }
  }

  lemma FlightGoesOn(s: State, d: Event, e: Event)
    requires Inv(s) && FlightOk(s, d) && (d.Command? ==> e.Receipt?)
    ensures FlightOk(Next(s, e), e)
  {
    hide Inv, ReceiptNext;
    if s.inFlight.Some? { ReceiptLands(s, e.outcome); } else { hide Next; FlightStarts(s, e); }
  }

  lemma RunLast(events: seq<Event>)
    requires events != []
    ensures Run(Initial(), events) == Next(Run(Initial(), events[..|events| - 1]), events[|events| - 1])
  {
  }

  lemma RunNothing()
    ensures Run(Initial(), []) == Initial()
  {
  }

  /** The adapter keeps the guard: every event of its runs is guarded. */
  lemma AdapterGuards(events: seq<Event>, k: nat)
    requires k < |events| && FollowsAdapter(events)
    ensures Guarded(Run(Initial(), events[..k]), events[k])
  {
    var s := Run(Initial(), events[..k]);
    if k > 0 { FlightIsLast(events[..k]); }
    assert k == 0 ==> s == Initial() by { RunNothing(); }
    hide Run, Reopens;
    forall i | 0 <= i < |s.records| && IsTerminal(s.records[i].state)
      ensures !Reopens(s, events[k], s.records[i]) && !EndsLate(s, events[k], s.records[i])
    {
      NotReopened(events, k, i);
    }
  }

  lemma NotReopened(events: seq<Event>, k: nat, i: nat)
    requires k < |events| && FollowsAdapter(events) && i < |Run(Initial(), events[..k]).records|
    requires IsTerminal(Run(Initial(), events[..k]).records[i].state)
    ensures !Reopens(Run(Initial(), events[..k]), events[k], Run(Initial(), events[..k]).records[i])
  {
    TerminalWasFinished(events[..k], i);
    hide Run, IsTerminal;
    var s := Run(Initial(), events[..k]);
    var j :| 0 <= j < k && events[..k][j].Finish? && events[..k][j].session == s.records[i].session;
    assert events[j].Finish? && events[j].session == s.records[i].session;
  }

  /** In every run of the adapter a session that has ended never becomes anything but ended. */
  lemma {:induction false} FinishedStaysFinished(events: seq<Event>, n: nat, i: nat)
    requires n <= |events| && FollowsAdapter(events)
    requires var s := Run(Initial(), events[..n]); i < |s.records| && IsTerminal(s.records[i].state)
    ensures !LiveAs(Run(Initial(), events), Run(Initial(), events[..n]).records[i].obj)
  {
    forall k | n <= k < |events| ensures Guarded(Run(Initial(), events[..k]), events[k]) { AdapterGuards(events, k); }
    hide Run, Guarded, LiveAs, IsTerminal, FollowsAdapter;
    TerminalInEveryRun(events, n, i);
  }

  lemma RunMore(events: seq<Event>, e: Event)
    ensures Run(Initial(), events + [e]) == Next(Run(Initial(), events), e)
  {
    hide Next;
    assert (events + [e])[..|events|] == events;
  }

  /** The run that opens one session. */
  lemma OneSession(session: SessionId)
    ensures var s := Run(Initial(), [OpenTurn(session, 1, true)]);
            && s.records == [Record(0, session, 1, Running, [], map[])] && s.bindings == map[session.key := session]
            && s.commands == {} && s.inFlight.None? && !s.closed
  {
    OpensFirst(session);
    RunNothing();
    RunMore([], OpenTurn(session, 1, true));
    assert [] + [OpenTurn(session, 1, true)] == [OpenTurn(session, 1, true)];
    hide Run, OpenNext;
  }

  lemma OpensFirst(session: SessionId)
    ensures OpenNext(Initial(), session, 1, true)
            == Initial().(records := [Record(0, session, 1, Running, [], map[])], bindings := map[session.key := session],
                          nextObj := 1)
  {
    assert MakeRoom([], map[]) == ([], map[]);
    assert IndexOf([], session) == 0;
    hide IndexOf, MakeRoom;
  }

  /** What finishing the only session does. */
  lemma FinishesOnly(s: State, r: Record)
    requires s.records == [r] && r.session.key in s.bindings && s.bindings[r.session.key] == r.session
    ensures FinishNext(s, r.session, EndTurn) == s.(records := [r.(pending := [], backends := map[], state := Completed)])
  {
    assert IndexOf(s.records, r.session) == 0;
  }

  /** Without that guard it is false: a finished session that is asked again waits for the wearer again. */
  lemma {:induction false} FinishedIsReopened(session: SessionId)
    ensures var ended := [OpenTurn(session, 1, true), Finish(session, EndTurn)];
            var s := Run(Initial(), ended);
            var s' := Run(Initial(), ended + [Ask(session, Question, "q", true, ["yes"], 0)]);
            && |s.records| == 1 && s.records[0].state.Completed?
            && |s'.records| == 1 && s'.records[0].obj == s.records[0].obj && s'.records[0].state.WaitingHuman?
  {
    var open := OpenTurn(session, 1, true);
    var ended := [open] + [Finish(session, EndTurn)];
    OneSession(session);
    RunMore([open], Finish(session, EndTurn));
    RunMore(ended, Ask(session, Question, "q", true, ["yes"], 0));
    FinishesOnly(Run(Initial(), [open]), Record(0, session, 1, Running, [], map[]));
    assert IndexOf(Run(Initial(), ended).records, session) == 0;
    hide Run, IndexOf, FinishNext, CommandNext, OpenNext, ReceiptNext, DiscardNext, SnapshotNext;
  }

  /** A session that is interrupted and ends before the receipt of the interrupt. */
  lemma EndsInFlight(session: SessionId, id: CommandId)
    ensures var c := Interrupt(id, session, 1);
            var s := Run(Initial(), [OpenTurn(session, 1, true), Event.Command(c, 0), Finish(session, EndTurn)]);
            && s.records == [Record(0, session, 1, Completed, [], map[])] && s.inFlight == Some(Call(c, 0, None))
  {
    var open, ask, end := OpenTurn(session, 1, true), Event.Command(Interrupt(id, session, 1), 0), Finish(session, EndTurn);
    OneSession(session);
    RunMore([open], ask);
    RunMore([open, ask], end);
    assert [open] + [ask] == [open, ask] && [open, ask] + [end] == [open, ask, end];
    hide Run, FinishNext, ReceiptNext, CommandNext, OpenNext, AskNext, DiscardNext, SnapshotNext;
    var s := Run(Initial(), [open]);
    InterruptsOnly(s, s.records[0], id);
    FinishesOnly(Run(Initial(), [open, ask]), s.records[0]);
  }

  /** Nor may the dispatcher suspend: an interrupt that is accepted after the end brings the session back. */
  lemma {:induction false} LateReceiptReopens(session: SessionId, id: CommandId)
    ensures var ended := [OpenTurn(session, 1, true), Event.Command(Interrupt(id, session, 1), 0), Finish(session, EndTurn)];
            var s := Run(Initial(), ended);
            var s' := Run(Initial(), ended + [Receipt(Accepted)]);
            && |s.records| == 1 && s.records[0].state.Completed?
            && |s'.records| == 1 && s'.records[0].obj == s.records[0].obj && s'.records[0].state.Interrupting?
  {
    var ended := [OpenTurn(session, 1, true), Event.Command(Interrupt(id, session, 1), 0), Finish(session, EndTurn)];
    EndsInFlight(session, id);
    RunMore(ended, Receipt(Accepted));
    hide Run, FinishNext, ReceiptNext, CommandNext, OpenNext, AskNext, DiscardNext, SnapshotNext;
    LandsOnly(Run(Initial(), ended));
  }

  lemma InterruptsOnly(s: State, r: Record, id: CommandId)
    requires s.records == [r] && r.state.Running? && s.commands == {} && s.inFlight.None? && !s.closed
    ensures var c := Interrupt(id, r.session, r.generation);
            CommandNext(s, c, 0) == s.(commands := {id}, inFlight := Some(Call(c, r.obj, None)), calls := s.calls + [Call(c, r.obj, None)])
  {
    assert IndexOf(s.records, r.session) == 0;
    hide IndexOf;
  }

  lemma LandsOnly(s: State)
    requires |s.records| == 1 && s.inFlight.Some? && s.inFlight.value.command.Interrupt? && s.inFlight.value.obj == s.records[0].obj
    ensures ReceiptNext(s, Accepted).records == [s.records[0].(state := Interrupting)]
  {
    assert IndexOfObj(s.records, s.records[0].obj) == 0;
    hide IndexOfObj;
  }
}
