/** What the turn tables promise over every interleaving. */
module TurnSafety {
  import opened Options
  import opened TurnProtocol
  import opened TurnInvariant

  lemma ReachableTables(events: seq<Event>)
    ensures TablesOk(Run(Initial(), events).tables)
  {
    hide Run;
    RunTablesOk(Initial(), events);
  }

  /** The active id is always in the turn table, and every tabled turn is an object of its own id
      whose event leads back to exactly that object. */
  lemma {:induction false} TablesAgree(events: seq<Event>, id: TurnId)
    ensures var t := Run(Initial(), events).tables;
            && (t.active.Some? ==> t.active.value in t.turns)
            && (id in t.turns ==> t.turns[id] < |t.objs| && t.objs[t.turns[id]].id == id
                                  && Routed(t, EventOf(t.objs[t.turns[id]])) == Some(t.turns[id]))
  {
    ReachableTables(events);
    hide Run;
    var t := Run(Initial(), events).tables;
    if id in t.turns { assert EntryOk(t, id); }
  }

  // ---------------------------------------------------------------- authority

  function AuthorityOf(turn: Turn): Authority {
    Authority(turn.id, turn.generation, EventOf(turn))
  }

  /** Object `o` is in the table, active and unfinished, and `a` is its authority. */
  predicate Holder(t: Tables, o: Obj, a: Authority) {
    Live(t, o) && AuthorityOf(t.objs[o]) == a
  }

  /** An authorization is current exactly when the table holds its very object, active and
      unfinished. */
  lemma ValidExactlyWhen(t: Tables, a: Authority)
    requires TablesOk(t)
    ensures Valid(t, a) <==> exists o: Obj :: Holder(t, o, a)
  {
    if Valid(t, a) {
      var o := t.turns[a.turnId];
      assert EntryOk(t, a.turnId);
      assert Holder(t, o, a);
    }
    if o: Obj :| Holder(t, o, a) {
      assert EntryOk(t, a.turnId);
    }
  }

  /** What is authorized is current, and what is current would be authorized again. */
  lemma {:induction false} AuthorizedExactlyWhen(t: Tables, event: EventId, a: Authority)
    requires TablesOk(t)
    ensures Authorize(t, event) == Some(a) <==> Valid(t, a) && a.event == event
  {
    if Authorize(t, event) == Some(a) {
      assert EntryOk(t, a.turnId);
    }
    if Valid(t, a) && a.event == event {
      assert EntryOk(t, a.turnId);
    }
  }

  /** A holder that the earlier tables already knew held the authority then. */
  lemma HeldBefore(t: Tables, t': Tables, o: Obj, a: Authority)
    requires TablesOk(t) && Declines(t, t') && MakesFresh(t, t') && Holder(t', o, a) && a.generation < t.nextGeneration
    ensures Holder(t, o, a)
  {
    assert o < |t.objs|;
  }

  /** No ABA: an authorization of a generation already taken that is not current now is never
      current again, whatever turns are started under the same id. */
  lemma StaleStaysStale(events: seq<Event>, more: seq<Event>, a: Authority)
    requires var t := Run(Initial(), events).tables; !Valid(t, a) && a.generation < t.nextGeneration
    ensures !Valid(Run(Run(Initial(), events), more).tables, a)
  {
    var s := Run(Initial(), events);
    ReachableTables(events);
    RunTablesOk(s, more);
    hide Run, Valid, TablesOk, Declines, MakesFresh, Holder;
    var t' := Run(s, more).tables;
    ValidExactlyWhen(s.tables, a);
    ValidExactlyWhen(t', a);
    if o: Obj :| Holder(t', o, a) {
      HeldBefore(s.tables, t', o, a);
    }
  }

  lemma OneHolder(t: Tables, o: Obj, p: Obj, a: Authority)
    requires TablesOk(t) && o < |t.objs| && p < |t.objs| && AuthorityOf(t.objs[o]) == AuthorityOf(t.objs[p])
    ensures o == p
  {
  }

  lemma AuthorizedHolder(t: Tables, event: EventId, a: Authority)
    requires TablesOk(t) && Authorize(t, event) == Some(a)
    ensures Holder(t, Routed(t, event).value, a) && a.generation < t.nextGeneration
  {
    assert EntryOk(t, a.turnId);
  }

  /** A holder of a later moment held the authority at every moment since it was given. */
  lemma HeldSince(s: State, more: seq<Event>, o: Obj, a: Authority)
    requires TablesOk(s.tables) && Holder(s.tables, o, a) && Valid(Run(s, more).tables, a)
    ensures Holder(Run(s, more).tables, o, a)
  {
    RunTablesOk(s, more);
    var t' := Run(s, more).tables;
    hide Run;
    ValidExactlyWhen(t', a);
    hide Valid;
    var p: Obj :| Holder(t', p, a);
    assert p < |t'.objs| && o < |t'.objs|;
    HeldBefore(s.tables, t', p, a);
    OneHolder(s.tables, o, p, a);
  }

  lemma RunSplit(s: State, events: seq<Event>, n: nat)
    requires n <= |events|
    ensures Run(Run(s, events[..n]), events[n..]) == Run(s, events)
  {
    hide Run;
    RunAppend(s, events[..n], events[n..]);
    assert events[..n] + events[n..] == events;
  }

  /** Whenever a captured authorization is still current, the table holds the very object it was
      given for, active and unfinished, and has done so at every moment in between. */
  lemma {:induction false} CurrentIsTheSameTurn(events: seq<Event>, more: seq<Event>, event: EventId, a: Authority, n: nat)
    requires n <= |more| && Authorize(Run(Initial(), events).tables, event) == Some(a)
    requires Valid(Run(Run(Initial(), events), more).tables, a)
    ensures var o := Routed(Run(Initial(), events).tables, event).value;
            Holder(Run(Run(Initial(), events), more).tables, o, a) && Holder(Run(Run(Initial(), events), more[..n]).tables, o, a)
  {
    var s := Run(Initial(), events);
    var m := Run(s, more[..n]);
    ReachableTables(events);
    AuthorizedHolder(s.tables, event, a);
    var o := Routed(s.tables, event).value;
    hide Authorize, Routed;
    HeldSince(s, more, o, a);
    RunTablesOk(s, more[..n]);
    RunSplit(s, more, n);
    RunTablesOk(m, more[n..]);
    hide Run, Valid, TablesOk;
    assert o < |m.tables.objs|;
  }
}
