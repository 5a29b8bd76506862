/** Which claims the replay ledger admits, told by the trace and by what was admitted before. */
module ReplayAdmission {
  import opened ReplayLedger

  // ---------------------------------------------------------------- the record tells the last attempt

  /** Some admitted claim was this attempt of this subcall. */
  ghost predicate Tried(log: seq<Claim>, nonce: Nonce, subcall: int, attempt: int) {
    exists m :: 0 <= m < |log| && log[m].nonce == nonce && log[m].subcall == subcall && log[m].attempt == attempt
  }

  ghost predicate UseTried(log: seq<Claim>, nonce: Nonce, use: Use) {
    && use.current >= 1 && use.current in use.subcalls
    && forall k :: k in use.subcalls ==> Tried(log, nonce, k, use.subcalls[k].maxAttempt)
  }

  ghost predicate AllTried(s: State) {
    forall n :: n in s.uses ==> UseTried(s.log, n, s.uses[n])
  }

  lemma TriedGrows(log: seq<Claim>, c: Claim)
    ensures Tried(log + [c], c.nonce, c.subcall, c.attempt)
    ensures forall n, k, t :: Tried(log, n, k, t) ==> Tried(log + [c], n, k, t)
  {
    assert (log + [c])[|log|] == c;
    assert forall i :: 0 <= i < |log| ==> (log + [c])[i] == log[i];
  }

  lemma UseTriedGrows(log: seq<Claim>, c: Claim, nonce: Nonce, use: Use)
    requires UseTried(log, nonce, use)
    ensures UseTried(log + [c], nonce, use)
  {
    hide Tried;
    TriedGrows(log, c);
  }

  lemma AdmittedTried(log: seq<Claim>, use: Use, c: Claim)
    requires c.subcall >= 1 && Admitted(use, c).Some?
    requires use.subcalls == map[] || UseTried(log, c.nonce, use)
    ensures UseTried(log + [c], c.nonce, Admitted(use, c).value)
  {
    hide Tried;
    TriedGrows(log, c);
  }

  /** A claim that is admitted has its record replaced; any other at most purges the ledger. */
  lemma ClaimShape(uses: Uses, c: Claim)
    ensures var v := ClaimUse(uses, c); var live := Unexpired(uses, c.now);
            && (!v.admitted ==> v.uses == uses || v.uses == live)
            && (v.admitted ==>
                  && c.subcall >= 1 && UseFor(live, c).Some? && Admitted(UseFor(live, c).value, c).Some?
                  && v.uses == live[c.nonce := Admitted(UseFor(live, c).value, c).value])
  {
    hide Allowlisted, Unexpired, UseFor, Admitted;
  }

  lemma RecordTried(s: State, c: Claim)
    requires AllTried(s) && UseFor(Unexpired(s.uses, c.now), c).Some?
    ensures var use := UseFor(Unexpired(s.uses, c.now), c).value; use.subcalls == map[] || UseTried(s.log, c.nonce, use)
  {
    hide UseTried;
  }

  lemma NextTried(s: State, c: Claim)
    requires AllTried(s)
    ensures AllTried(Next(s, c))
  {
    hide ClaimUse, Admitted, UseTried, UseFor;
    var s' := Next(s, c);
    ClaimShape(s.uses, c);
    if ClaimUse(s.uses, c).admitted {
      RecordTried(s, c);
      AdmittedTried(s.log, UseFor(Unexpired(s.uses, c.now), c).value, c);
      forall n | n in s.uses ensures UseTried(s'.log, n, s.uses[n]) {
        UseTriedGrows(s.log, c, n, s.uses[n]);
      }
    }
  }

  lemma {:induction false} ReachableTried(claims: seq<Claim>)
    ensures AllTried(Run(claims))
  {
    hide Next;
    if claims != [] {
      hide AllTried;
      ReachableTried(claims[..|claims| - 1]);
      NextTried(Run(claims[..|claims| - 1]), claims[|claims| - 1]);
    }
  }

  // ---------------------------------------------------------------- admission, told by the log

  /** The subcall is the one after those that were admitted. */
  ghost predicate ComesNext(log: seq<Claim>, c: Claim) {
    && (forall k :: 0 <= k < |log| ==> !SameCall(log[k], c))
    && exists k :: 0 <= k < |log| && log[k].nonce == c.nonce && log[k].subcall == c.subcall - 1
  }

  /** The subcall was admitted once, as attempt 1 with the same tool and arguments, and comes again. */
  predicate ComesAgain(log: seq<Claim>, c: Claim) {
    && c.attempt == 2
    && exists m :: 0 <= m < |log| && SameCall(log[m], c) && log[m].attempt == 1 && log[m].tool == c.tool
                   && log[m].arguments == c.arguments
                   && forall k :: 0 <= k < |log| && SameCall(log[k], c) ==> k == m
  }

  lemma NextExactly(log: seq<Claim>, use: Use, c: Claim)
    requires UseOk(log, c.nonce, use) && use.current >= 1 && 1 <= c.subcall && c.subcall !in use.subcalls
    requires forall k :: 0 <= k < |log| && log[k].nonce == c.nonce ==> log[k].subcall in use.subcalls
    ensures (Admitted(use, c).Some? <==> ComesNext(log, c)) && !ComesAgain(log, c)
  {
    if c.subcall == use.current + 1 { assert Seen(log, c.nonce, c.subcall - 1); }
  }

  /** A first attempt that was the last one was the only one. */
  lemma FirstIsOnly(log: seq<Claim>, c: Claim, m: nat)
    requires forall i, j :: 0 <= i < j < |log| ==> Successive(log[i], log[j])
    requires m < |log| && SameCall(log[m], c)
    requires forall k :: 0 <= k < |log| && SameCall(log[k], c) ==> log[k].attempt <= log[m].attempt
    ensures log[m].attempt == 1 ==> forall k :: 0 <= k < |log| && SameCall(log[k], c) ==> k == m
  {
    assert forall k :: 0 <= k < m ==> Successive(log[k], log[m]);
    assert forall k :: m < k < |log| ==> Successive(log[m], log[k]);
  }

  /** What was admitted of this call: never later than the record says, and with its fingerprint. */
  predicate OfRecord(d: Claim, c: Claim, call: Subcall) {
    SameCall(d, c) ==> 1 <= d.attempt <= call.maxAttempt && d.Print() == call.fingerprint
  }

  lemma AgainExactly(log: seq<Claim>, use: Use, c: Claim)
    requires c.subcall in use.subcalls && Tried(log, c.nonce, c.subcall, use.subcalls[c.subcall].maxAttempt)
    requires forall k :: 0 <= k < |log| ==> OfRecord(log[k], c, use.subcalls[c.subcall])
    requires forall i, j :: 0 <= i < j < |log| ==> Successive(log[i], log[j])
    ensures (Admitted(use, c).Some? <==> ComesAgain(log, c)) && !ComesNext(log, c)
  {
    var call := use.subcalls[c.subcall];
    var m :| 0 <= m < |log| && log[m].nonce == c.nonce && log[m].subcall == c.subcall && log[m].attempt == call.maxAttempt;
    assert forall k :: 0 <= k < |log| && SameCall(log[k], c) ==> log[k].attempt <= log[m].attempt by {
      hide Successive;
      assert forall k :: 0 <= k < |log| ==> OfRecord(log[k], c, call);
    }
    FirstIsOnly(log, c, m);
    hide Successive;
    assert SameCall(log[m], c) && OfRecord(log[m], c, call);
  }

  lemma LogOfRecord(s: State, c: Claim)
    requires Inv(s) && c.nonce in s.uses && c.subcall in s.uses[c.nonce].subcalls
    ensures forall k :: 0 <= k < |s.log| ==> OfRecord(s.log[k], c, s.uses[c.nonce].subcalls[c.subcall])
  {
    hide UseOk, Successive, Allowlisted, Seen;
    forall k | 0 <= k < |s.log| && SameCall(s.log[k], c) ensures OfRecord(s.log[k], c, s.uses[c.nonce].subcalls[c.subcall]) {
      assert Checked(s.log[k]) && OnRecord(s.uses, s.log[k]);
    }
  }

  lemma SubcallsOfRecord(s: State, c: Claim)
    requires Inv(s) && c.nonce in s.uses
    ensures UseOk(s.log, c.nonce, s.uses[c.nonce])
    ensures forall k :: 0 <= k < |s.log| && s.log[k].nonce == c.nonce ==> s.log[k].subcall in s.uses[c.nonce].subcalls
    ensures forall i, j :: 0 <= i < j < |s.log| ==> Successive(s.log[i], s.log[j])
  {
    hide UseOk, Successive, Checked, Seen;
  }

  lemma AdmitsByRecord(s: State, c: Claim)
    requires Inv(s) && AllTried(s) && Checked(c) && c.nonce in Unexpired(s.uses, c.now)
    ensures ClaimUse(s.uses, c).admitted
            <==> s.uses[c.nonce].expires == c.expires && s.uses[c.nonce].workflow == c.workflow
                 && (ComesNext(s.log, c) || ComesAgain(s.log, c))
  {
    hide Inv, Admitted, ComesNext, ComesAgain, Allowlisted, UseOk, Tried, Successive;
    var use := s.uses[c.nonce];
    assert UseTried(s.log, c.nonce, use);
    hide AllTried;
    SubcallsOfRecord(s, c);
    if c.subcall in use.subcalls {
      LogOfRecord(s, c);
      AgainExactly(s.log, use, c);
    } else {
      NextExactly(s.log, use, c);
    }
  }

  /** The record of a capability names the expiry and the workflow of everything admitted for it. */
  lemma RecordOfAdmitted(claims: seq<Claim>, i: nat, c: Claim)
    requires Timely(claims) && i < |claims| && Admits(claims, i) && !PurgedSince(claims + [c], i) && Checked(c)
    ensures var s := Run(claims); var d := claims[i];
            && d.nonce in Unexpired(s.uses, c.now) && d.nonce in s.uses
            && s.uses[d.nonce].expires == d.expires && s.uses[d.nonce].workflow == d.workflow
  {
    hide Run, ClaimUse, Checked, Timely;
    PurgedByLast(claims, c, i);
    RecordLasts(claims, i);
    ReachableInv(claims);
    var m := LogOfTrace(claims, i);
    hide PurgedSince, Admits;
    assert OnRecord(Run(claims).uses, Run(claims).log[m]) by { hide OnRecord, UseOk, Seen, Successive; }
    hide Inv;
  }

  /** What is admitted at some place of the trace is in the log. */
  lemma {:induction false} LogOfTrace(claims: seq<Claim>, i: nat) returns (m: nat)
    requires i < |claims| && Admits(claims, i)
    ensures m < |Run(claims).log| && Run(claims).log[m] == claims[i]
  {
    hide ClaimUse;
    var n := |claims| - 1;
    assert claims == claims[..n] + [claims[n]];
    RunMore(claims[..n], claims[n]);
    if i < n {
      m := LogOfTrace(claims[..n], i);
    } else {
      m := |Run(claims[..n]).log|;
    }
  }

  /** After a timely trace a capability that was admitted and not purged since has a checked claim admitted
      exactly in two cases, and only with the expiry and workflow it was admitted with: the subcall follows
      the last one and was never admitted, or it was admitted once, as attempt 1 with the same tool and
      arguments, and this is attempt 2. */
  lemma {:induction false} AdmittedExactlyWhen(claims: seq<Claim>, i: nat, c: Claim)
    requires Timely(claims) && i < |claims| && Admits(claims, i) && !PurgedSince(claims + [c], i)
    requires Checked(c) && c.nonce == claims[i].nonce
    ensures var log := Run(claims).log;
            Run(claims + [c]).log
            == if c.expires == claims[i].expires && c.workflow == claims[i].workflow && (ComesNext(log, c) || ComesAgain(log, c))
               then log + [c] else log
  {
    hide Checked, Timely, PurgedSince, Admits, ComesNext, ComesAgain, ClaimUse;
    RunMore(claims, c);
    RecordOfAdmitted(claims, i, c);
    ReachableInv(claims);
    ReachableTried(claims);
    AdmitsByRecord(Run(claims), c);
    hide Run, Inv, AllTried, Unexpired;
  }

  lemma LiveWasLogged(s: State, nonce: Nonce)
    requires AllTried(s)
    ensures nonce in s.uses ==> exists k :: 0 <= k < |s.log| && s.log[k].nonce == nonce
  {
    if nonce in s.uses { assert UseTried(s.log, nonce, s.uses[nonce]); }
  }

  /** A capability of which nothing was ever admitted begins with its first subcall, whatever the attempt,
      as long as fewer than 1024 others are live. */
  lemma {:induction false} NewBeginsExactlyWhen(claims: seq<Claim>, c: Claim)
    requires forall k :: 0 <= k < |Run(claims).log| ==> Run(claims).log[k].nonce != c.nonce
    ensures var s := Run(claims);
            Run(claims + [c]).log == if Checked(c) && c.subcall == 1 && |Unexpired(s.uses, c.now)| < 1024 then s.log + [c] else s.log
  {
    hide Checked, ClaimUse, Tried;
    RunMore(claims, c);
    ReachableTried(claims);
    var s := Run(claims);
    LiveWasLogged(s, c.nonce);
    hide Run, AllTried;
    if Checked(c) { StartsAnewWhen(s.uses, c); }
    assert !Checked(c) ==> !ClaimUse(s.uses, c).admitted by { RecordAfter(s.uses, c, c.nonce); }
  }
}
