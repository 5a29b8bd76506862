/**
 The capability replay ledger of workflow_relay.py: which subcalls of a capability are admitted,
 over every sequence of claims.
 */
module ReplayLedger {
  import opened Options

  type Nonce = string
  type Workflow = string
  type Tool = string

  const MAX_LIVE_CAPABILITIES := 1024
  const MAX_SUBCALLS := 8
  const MAX_ATTEMPTS := 2

  /** WORKFLOW_INTERNAL_SEQUENCE. */
  function Sequence(workflow: Workflow): Option<seq<Tool>> {
    if workflow == "g2_work_task_add" then Some(["g2.work_tasks.add"])
    else if workflow == "g2_kanban_task_create" then Some(["g2.kanban.task.create"])
    else if workflow == "g2_clock_set_timer" then Some(["g2.clock.set_timer"])
    else if workflow == "g2_clock_set_alarm" then Some(["g2.clock.set_alarm"])
    else if workflow == "g2_reminder_create" then Some(["g2.reminders.create"])
    else if workflow == "g2_weather_present" then Some(["g2.weather.read_forecast", "g2.context.present"])
    else if workflow == "g2_train_departures_present" then Some(["g2.transit.read_departures", "g2.context.present"])
    else if workflow == "g2_apps_manage" then Some(["g2.device.apps.manage"])
    else if workflow == "g2_media_control" then Some(["g2.device.media.control"])
    else if workflow == "g2_navigation" then Some(["g2.device.navigation"])
    else if workflow == "g2_notifications" then Some(["g2.device.notifications"])
    else if workflow == "g2_health_summary" then Some(["g2.device.health.summary"])
    else if workflow == "g2_calendar_agenda" then Some(["g2.device.calendar.agenda"])
    else None
  }

  /** What a fingerprint hashes; the digest is taken as injective. */
  datatype Fingerprint = Fingerprint(tool: Tool, arguments: string)

  /** One verified request that asks to be admitted; `now` is the clock at the claim. */
  datatype Claim = Claim(nonce: Nonce, expires: int, workflow: Workflow, tool: Tool, arguments: string,
                         subcall: int, attempt: int, now: int)
  {
    function Print(): Fingerprint { Fingerprint(tool, arguments) }
  }

  datatype Subcall = Subcall(fingerprint: Fingerprint, maxAttempt: int)

  datatype Use = Use(expires: int, workflow: Workflow, current: int, subcalls: map<int, Subcall>)

  type Uses = map<Nonce, Use>

  /** The tool is the reviewed one at this place of the workflow. */
  predicate Allowlisted(c: Claim) {
    && Sequence(c.workflow).Some?
    && 1 <= c.subcall <= |Sequence(c.workflow).value| <= MAX_SUBCALLS
    && Sequence(c.workflow).value[c.subcall - 1] == c.tool
  }

  /** The bounds that `_dispatch` checks before anything else. */
  predicate WellFormed(c: Claim) {
    1 <= c.subcall <= MAX_SUBCALLS && 1 <= c.attempt <= MAX_ATTEMPTS
  }

  /** The claim gets as far as the ledger, which purges before it looks the claim up. */
  predicate Checked(c: Claim) {
    WellFormed(c) && Allowlisted(c)
  }

  function Unexpired(uses: Uses, now: int): Uses {
    map n | n in uses && uses[n].expires > now :: uses[n]
  }

  /** The state a claim works on after purging, when there is one for it. */
  function UseFor(uses: Uses, c: Claim): Option<Use> {
    if c.nonce in uses then
      if uses[c.nonce].expires != c.expires || uses[c.nonce].workflow != c.workflow then None else Some(uses[c.nonce])
    else if |uses| >= MAX_LIVE_CAPABILITIES || c.subcall != 1 then None
    else Some(Use(c.expires, c.workflow, 0, map[]))
  }

  /** The state after admitting `c`, or nothing when it is refused. */
  function Admitted(use: Use, c: Claim): Option<Use> {
    if c.subcall !in use.subcalls then
      if c.subcall != use.current + 1 then None
      else Some(use.(subcalls := use.subcalls[c.subcall := Subcall(c.Print(), c.attempt)], current := c.subcall))
    else
      var previous := use.subcalls[c.subcall];
      if previous.fingerprint != c.Print() || c.attempt != previous.maxAttempt + 1 || c.attempt > MAX_ATTEMPTS then None
      else Some(use.(subcalls := use.subcalls[c.subcall := previous.(maxAttempt := c.attempt)]))
  }

  datatype Verdict = Verdict(uses: Uses, admitted: bool)

  /** `_claim_use`. */
  function ClaimUse(uses: Uses, c: Claim): Verdict {
    if !Checked(c) then Verdict(uses, false)
    else
      var live := Unexpired(uses, c.now);
      var use := UseFor(live, c);
      if use.None? then Verdict(live, false)
      else
        var after := Admitted(use.value, c);
        if after.None? then Verdict(live, false) else Verdict(live[c.nonce := after.value], true)
  }

  /** The ledger and the claims it admitted. */
  datatype State = State(uses: Uses, log: seq<Claim>)

  function Next(s: State, c: Claim): State {
    var v := ClaimUse(s.uses, c);
    State(v.uses, if v.admitted then s.log + [c] else s.log)
  }

  function Run(claims: seq<Claim>): State {
    if claims == [] then State(map[], []) else Next(Run(claims[..|claims| - 1]), claims[|claims| - 1])
  }

  /** After the claim at `i` the ledger was purged at or after the expiry that this claim names. */
  ghost predicate PurgedSince(claims: seq<Claim>, i: nat)
    requires i < |claims|
  {
    exists k :: i < k < |claims| && Checked(claims[k]) && claims[k].now >= claims[i].expires
  }

  /** From one claim of a capability to the next nothing purges the ledger at or after its expiry. */
  predicate Timely(claims: seq<Claim>) {
    forall i, k, j :: 0 <= i < k <= j < |claims| && claims[i].nonce == claims[j].nonce
                      && Checked(claims[i]) && Checked(claims[k]) && Checked(claims[j]) ==>
      claims[k].now < claims[i].expires
  }

  /** In particular this holds when every claim is evaluated before its expiry, by a clock that does
      not go back, and a nonce stands for one capability with one expiry. */
  lemma ForwardClockIsTimely(claims: seq<Claim>)
    requires forall i :: 0 <= i < |claims| ==> claims[i].now < claims[i].expires
    requires forall i, j :: 0 <= i < j < |claims| ==> claims[i].now <= claims[j].now
    requires forall i, j :: 0 <= i < j < |claims| && claims[i].nonce == claims[j].nonce ==> claims[i].expires == claims[j].expires
    ensures Timely(claims)
  {
    hide Checked;
  }

  // ---------------------------------------------------------------- what the ledger remembers

  predicate SameCall(a: Claim, b: Claim) {
    a.nonce == b.nonce && a.subcall == b.subcall
  }

  /** The claim is on the record of its capability. */
  predicate OnRecord(uses: Uses, c: Claim) {
    && c.nonce in uses && uses[c.nonce].expires == c.expires && uses[c.nonce].workflow == c.workflow
    && c.subcall in uses[c.nonce].subcalls
    && uses[c.nonce].subcalls[c.subcall].fingerprint == c.Print()
    && c.attempt <= uses[c.nonce].subcalls[c.subcall].maxAttempt
  }

  ghost predicate Seen(log: seq<Claim>, nonce: Nonce, subcall: int) {
    exists i :: 0 <= i < |log| && log[i].nonce == nonce && log[i].subcall == subcall
  }

  /** The subcalls of a live capability are the first `current` ones, each admitted before. */
  ghost predicate UseOk(log: seq<Claim>, nonce: Nonce, use: Use) {
    && use.current >= 0
    && (forall k :: k in use.subcalls <==> 1 <= k <= use.current)
    && (forall k :: 1 <= k <= use.current ==> Seen(log, nonce, k))
  }

  predicate Successive(a: Claim, b: Claim) {
    SameCall(a, b) ==> a.Print() == b.Print() && a.workflow == b.workflow && a.attempt == 1 && b.attempt == 2
  }

  ghost predicate Inv(s: State) {
    && |s.uses| <= MAX_LIVE_CAPABILITIES
    && (forall n :: n in s.uses ==> UseOk(s.log, n, s.uses[n]))
    && (forall i :: 0 <= i < |s.log| ==> Checked(s.log[i]))
    && (forall i :: 0 <= i < |s.log| && s.log[i].nonce in s.uses ==> OnRecord(s.uses, s.log[i]))
    && (forall i, j :: 0 <= i < j < |s.log| ==> Successive(s.log[i], s.log[j]))
    && (forall j :: 0 <= j < |s.log| && s.log[j].subcall > 1 ==> Seen(s.log[..j], s.log[j].nonce, s.log[j].subcall - 1))
  }

  /** If the capability was admitted before, its record is still there. */
  predicate InTime(s: State, c: Claim) {
    forall i :: 0 <= i < |s.log| && s.log[i].nonce == c.nonce ==> c.nonce in Unexpired(s.uses, c.now)
  }

  // ---------------------------------------------------------------- one claim

  lemma UnexpiredKeeps(s: State, now: int)
    requires Inv(s)
    ensures var live := Unexpired(s.uses, now);
            && |live| <= MAX_LIVE_CAPABILITIES
            && (forall n :: n in live ==> UseOk(s.log, n, live[n]))
            && (forall i :: 0 <= i < |s.log| && s.log[i].nonce in live ==> OnRecord(live, s.log[i]))
  {
    var live := Unexpired(s.uses, now);
    hide UseOk, Checked, Successive, Seen;
    assert live.Keys <= s.uses.Keys;
    assert s.uses.Keys == live.Keys + (s.uses.Keys - live.Keys);
    assert |live| == |live.Keys| && |s.uses| == |s.uses.Keys|;
  }

  /** The record that admitting `c` leaves continues the one it started from. */
  lemma AdmittedRecord(log: seq<Claim>, uses: Uses, c: Claim)
    requires forall n :: n in uses ==> UseOk(log, n, uses[n])
    requires WellFormed(c) && UseFor(uses, c).Some? && Admitted(UseFor(uses, c).value, c).Some?
    ensures var after := Admitted(UseFor(uses, c).value, c).value;
            && UseOk(log + [c], c.nonce, after) && OnRecord(uses[c.nonce := after], c)
            && (forall d :: OnRecord(uses, d) ==> OnRecord(uses[c.nonce := after], d))
            && (c.subcall > 1 ==> Seen(log, c.nonce, c.subcall - 1))
            && (forall d :: SameCall(d, c) && OnRecord(uses, d) && 1 <= d.attempt ==> Successive(d, c))
  {
    var use := UseFor(uses, c).value;
    var after := Admitted(use, c).value;
    assert UseOk(log, c.nonce, use);
    SeenGrows(log, c);
    assert Seen(log + [c], c.nonce, c.subcall);
    hide Seen;
  }

  lemma SeenGrows(log: seq<Claim>, c: Claim)
    ensures forall n, k :: Seen(log + [c], n, k) <==> Seen(log, n, k) || (n == c.nonce && k == c.subcall)
  {
    assert (log + [c])[|log|] == c;
    assert forall i :: 0 <= i < |log| ==> (log + [c])[i] == log[i];
  }

  lemma UseOkGrows(log: seq<Claim>, c: Claim, n: Nonce, use: Use)
    requires UseOk(log, n, use)
    ensures UseOk(log + [c], n, use)
  {
    SeenGrows(log, c);
    hide Seen;
  }

  /** A call that was admitted before is still on record when it comes again in time. */
  lemma StillOnRecord(s: State, c: Claim, i: nat)
    requires Inv(s) && InTime(s, c) && i < |s.log| && s.log[i].nonce == c.nonce
    ensures OnRecord(Unexpired(s.uses, c.now), s.log[i])
  {
    UnexpiredKeeps(s, c.now);
    hide Inv, OnRecord, Unexpired;
  }

  lemma AdmitKeepsCount(uses: Uses, c: Claim, after: Use)
    requires |uses| <= MAX_LIVE_CAPABILITIES && (c.nonce !in uses ==> |uses| < MAX_LIVE_CAPABILITIES)
    ensures |uses[c.nonce := after]| <= MAX_LIVE_CAPABILITIES
  {
    var more := uses[c.nonce := after];
    assert more.Keys == uses.Keys + {c.nonce};
    assert |more| == |more.Keys| && |uses| == |uses.Keys|;
    assert c.nonce in uses ==> more.Keys == uses.Keys;
  }

  lemma AdmitKeepsUses(s: State, c: Claim)
    requires Inv(s) && ClaimUse(s.uses, c).admitted
    ensures var s' := Next(s, c); forall n :: n in s'.uses ==> UseOk(s'.log, n, s'.uses[n])
  {
    var live := Unexpired(s.uses, c.now);
    UnexpiredKeeps(s, c.now);
    AdmittedRecord(s.log, live, c);
    hide Inv, OnRecord, Admitted, Checked;
    forall n | n in live ensures UseOk(s.log + [c], n, live[n]) {
      UseOkGrows(s.log, c, n, live[n]);
    }
    hide UseOk, Unexpired, UseFor;
  }

  lemma AdmitKeepsRecords(s: State, c: Claim)
    requires Inv(s) && InTime(s, c) && ClaimUse(s.uses, c).admitted
    ensures var s' := Next(s, c); forall i :: 0 <= i < |s'.log| && s'.log[i].nonce in s'.uses ==> OnRecord(s'.uses, s'.log[i])
  {
    var live := Unexpired(s.uses, c.now);
    UnexpiredKeeps(s, c.now);
    AdmittedRecord(s.log, live, c);
    hide Inv, OnRecord, Admitted, Checked, UseOk, Unexpired, UseFor, Seen;
    var s' := Next(s, c);
    forall i | 0 <= i < |s'.log| && s'.log[i].nonce in s'.uses ensures OnRecord(s'.uses, s'.log[i]) {
      if i < |s.log| { assert s.log[i].nonce in live && OnRecord(live, s.log[i]); }
    }
  }

  lemma AdmitKeepsLog(s: State, c: Claim)
    requires Inv(s) && InTime(s, c) && ClaimUse(s.uses, c).admitted
    ensures var log := s.log + [c];
            && (forall i, j :: 0 <= i < j < |log| ==> Successive(log[i], log[j]))
            && (forall j :: 0 <= j < |log| && log[j].subcall > 1 ==> Seen(log[..j], log[j].nonce, log[j].subcall - 1))
            && (forall i :: 0 <= i < |log| ==> Checked(log[i]))
  {
    var live := Unexpired(s.uses, c.now);
    var log := s.log + [c];
    UnexpiredKeeps(s, c.now);
    AdmittedRecord(s.log, live, c);
    assert forall j :: 0 <= j < |s.log| ==> log[..j] == s.log[..j];
    assert log[..|s.log|] == s.log;
    hide Admitted, Allowlisted, UseOk, Unexpired, UseFor, Seen, OnRecord;
    forall i | 0 <= i < |s.log| ensures Successive(s.log[i], c) {
      assert Checked(s.log[i]);
      if SameCall(s.log[i], c) { StillOnRecord(s, c, i); }
    }
    hide Successive, InTime, SameCall;
  }

  lemma NextKeeps(s: State, c: Claim)
    requires Inv(s) && (ClaimUse(s.uses, c).admitted ==> InTime(s, c))
    ensures Inv(Next(s, c))
  {
    UnexpiredKeeps(s, c.now);
    var live := Unexpired(s.uses, c.now);
    if ClaimUse(s.uses, c).admitted {
      AdmitKeepsCount(live, c, Admitted(UseFor(live, c).value, c).value);
      AdmitKeepsUses(s, c);
      AdmitKeepsRecords(s, c);
      AdmitKeepsLog(s, c);
    }
    hide UseOk, Unexpired, UseFor, Seen, OnRecord, Admitted, Checked, Successive;
  }

  // ---------------------------------------------------------------- every trace

  /** The claim at `i` is admitted in its turn. */
  predicate Admits(claims: seq<Claim>, i: nat)
    requires i < |claims|
  {
    ClaimUse(Run(claims[..i]).uses, claims[i]).admitted
  }

  /** Every admitted claim was admitted at some place of the trace. */
  lemma {:induction false} LogFromTrace(claims: seq<Claim>, m: nat) returns (i: nat)
    requires m < |Run(claims).log|
    ensures i < |claims| && Admits(claims, i) && claims[i] == Run(claims).log[m]
  {
    hide ClaimUse;
    assert claims != [];
    var n := |claims| - 1;
    if m < |Run(claims[..n]).log| {
      i := LogFromTrace(claims[..n], m);
      assert claims[..n][..i] == claims[..i];
    } else {
      i := n;
    }
  }

  /** What a claim does to the record of some nonce. */
  lemma RecordAfter(uses: Uses, c: Claim, n: Nonce)
    ensures var v := ClaimUse(uses, c); var live := Unexpired(uses, c.now);
            && (!Checked(c) ==> v.uses == uses && !v.admitted)
            && (Checked(c) && n != c.nonce ==> (n in v.uses <==> n in live))
            && (Checked(c) && n in live ==> n in v.uses && v.uses[n].expires == live[n].expires)
            && (v.admitted ==> c.nonce in v.uses && v.uses[c.nonce].expires == c.expires)
  {
    hide Checked;
  }

  lemma AdmittedIsChecked(claims: seq<Claim>, i: nat)
    requires i < |claims| && Admits(claims, i)
    ensures Checked(claims[i])
  {
    hide Run;
  }

  lemma PurgedByLast(claims: seq<Claim>, c: Claim, i: nat)
    requires i < |claims|
    ensures PurgedSince(claims + [c], i) <==> PurgedSince(claims, i) || (Checked(c) && c.now >= claims[i].expires)
  {
    hide Checked;
    var more := claims + [c];
    assert forall k :: 0 <= k < |claims| ==> more[k] == claims[k];
    assert more[|claims|] == c;
    if PurgedSince(claims, i) {
      var k :| i < k < |claims| && Checked(claims[k]) && claims[k].now >= claims[i].expires;
      assert Checked(more[k]);
    }
  }

  lemma RunMore(claims: seq<Claim>, c: Claim)
    ensures Run(claims + [c]) == Next(Run(claims), c) && Run(claims + [c]).uses == ClaimUse(Run(claims).uses, c).uses
    ensures forall i :: 0 <= i < |claims| ==> Admits(claims + [c], i) == Admits(claims, i)
    ensures Admits(claims + [c], |claims|) == ClaimUse(Run(claims).uses, c).admitted
  {
    hide ClaimUse;
    assert (claims + [c])[..|claims|] == claims;
    forall i | 0 <= i < |claims| ensures Admits(claims + [c], i) == Admits(claims, i) {
      assert (claims + [c])[..i] == claims[..i];
    }
  }

  predicate HasRecord(uses: Uses, c: Claim) {
    c.nonce in uses && uses[c.nonce].expires == c.expires
  }

  /** A record stays through a claim that does not purge it, and one that is not there stays away
      until its capability claims again. */
  lemma RecordStep(claims: seq<Claim>, c: Claim, d: Claim)
    ensures var uses, uses' := Run(claims).uses, Run(claims + [c]).uses; var purges := Checked(c) && c.now >= d.expires;
            && (HasRecord(uses, d) && !purges ==> HasRecord(uses', d))
            && ((d.nonce !in uses || (HasRecord(uses, d) && purges)) && (Checked(c) ==> c.nonce != d.nonce) ==> d.nonce !in uses')
  {
    RunMore(claims, c);
    RecordAfter(Run(claims).uses, c, d.nonce);
    hide Run, Next, ClaimUse, Checked;
  }

  lemma RecordMade(claims: seq<Claim>, c: Claim)
    requires ClaimUse(Run(claims).uses, c).admitted
    ensures HasRecord(Run(claims + [c]).uses, c)
  {
    RunMore(claims, c);
    RecordAfter(Run(claims).uses, c, c.nonce);
    hide Run, Next, ClaimUse;
  }

  /** The record of an admitted claim lasts, with its expiry, until a purge at or after that expiry. */
  lemma {:induction false} RecordLasts(claims: seq<Claim>, i: nat)
    requires i < |claims| && Admits(claims, i) && !PurgedSince(claims, i)
    ensures HasRecord(Run(claims).uses, claims[i])
    decreases |claims|
  {
    hide Run, Next, ClaimUse, Checked, Admits, PurgedSince, HasRecord;
    var n := |claims| - 1;
    var before, c, d := claims[..n], claims[n], claims[i];
    assert claims == before + [c];
    RunMore(before, c);
    if i < n {
      PurgedByLast(before, c, i);
      RecordLasts(before, i);
      RecordStep(before, c, d);
    } else {
      RecordMade(before, c);
    }
  }

  /** Once purged, the record does not come back in a timely trace. */
  lemma {:induction false} ForgottenStays(claims: seq<Claim>, i: nat)
    requires Timely(claims) && i < |claims| && Admits(claims, i) && PurgedSince(claims, i)
    ensures claims[i].nonce !in Run(claims).uses
    decreases |claims|
  {
    hide Run, Next, ClaimUse, Checked, Admits, PurgedSince, Timely;
    var n := |claims| - 1;
    var before, c, d := claims[..n], claims[n], claims[i];
    assert claims == before + [c];
    NotAgain(claims, i);
    TimelyBefore(before, c);
    RunMore(before, c);
    PurgedByLast(before, c, i);
    RecordStep(before, c, d);
    if PurgedSince(before, i) { ForgottenStays(before, i); } else { RecordLasts(before, i); }
  }

  /** The last claim of a timely trace is not one of a capability that was purged. */
  lemma NotAgain(claims: seq<Claim>, i: nat)
    requires Timely(claims) && i < |claims| && Admits(claims, i) && PurgedSince(claims, i)
    ensures i < |claims| - 1
    ensures Checked(claims[|claims| - 1]) ==> claims[|claims| - 1].nonce != claims[i].nonce
  {
    AdmittedIsChecked(claims, i);
    hide Checked, Admits;
  }

  lemma TimelyBefore(claims: seq<Claim>, c: Claim)
    requires Timely(claims + [c])
    ensures Timely(claims)
  {
    hide Checked;
    var more := claims + [c];
    assert forall k :: 0 <= k < |claims| ==> more[k] == claims[k];
  }

  /** In a timely trace every claim comes in time. */
  lemma TimelyIsInTime(claims: seq<Claim>)
    requires claims != [] && Timely(claims) && Checked(claims[|claims| - 1])
    ensures InTime(Run(claims[..|claims| - 1]), claims[|claims| - 1])
  {
    var n := |claims| - 1;
    var before := claims[..n];
    hide ClaimUse, Run, Checked;
    forall m | 0 <= m < |Run(before).log| && Run(before).log[m].nonce == claims[n].nonce
      ensures claims[n].nonce in Unexpired(Run(before).uses, claims[n].now)
    {
      var i := LogFromTrace(before, m);
      AdmittedIsChecked(before, i);
      assert forall k :: 0 <= k < n ==> before[k] == claims[k];
      RecordLasts(before, i);
    }
  }

  lemma {:induction false} ReachableInv(claims: seq<Claim>)
    requires Timely(claims)
    ensures Inv(Run(claims))
  {
    hide Next, ClaimUse, Checked, InTime, UseOk, OnRecord, Successive, Seen;
    if claims != [] {
      hide Timely, Inv;
      var n := |claims| - 1;
      var before, c := claims[..n], claims[n];
      assert claims == before + [c];
      TimelyBefore(before, c);
      ReachableInv(before);
      if ClaimUse(Run(before).uses, c).admitted {
        AdmittedIsChecked(claims, n);
        TimelyIsInTime(claims);
      }
      NextKeeps(Run(before), c);
    }
  }

  /** Over every timely trace: a subcall of a capability is admitted at most twice, first as attempt
      1 and then as attempt 2, with the same tool, arguments and workflow. */
  lemma AdmittedAtMostTwice(claims: seq<Claim>, i: nat, j: nat)
    requires Timely(claims) && i < j < |Run(claims).log| && SameCall(Run(claims).log[i], Run(claims).log[j])
    ensures var log := Run(claims).log;
            && log[i].tool == log[j].tool && log[i].arguments == log[j].arguments && log[i].workflow == log[j].workflow
            && log[i].attempt == 1 && log[j].attempt == 2
            && forall k :: 0 <= k < |log| && SameCall(log[k], log[i]) ==> k == i || k == j
  {
    ReachableInv(claims);
    hide Run, UseOk, OnRecord, Seen, Allowlisted;
    var log := Run(claims).log;
    assert Successive(log[i], log[j]);
    assert forall k :: 0 <= k < i ==> Successive(log[k], log[i]);
    assert forall k :: 0 <= k < j ==> Successive(log[k], log[j]);
    assert forall k :: i < k < |log| ==> Successive(log[i], log[k]);
    assert forall k :: j < k < |log| ==> Successive(log[j], log[k]);
  }

  /** Subcalls are first admitted in the order 1, 2, ..., each with the tool at that place of its
      reviewed workflow, and at most 1024 capabilities are live. */
  lemma {:induction false} AdmittedInOrder(claims: seq<Claim>, j: nat)
    requires Timely(claims) && j < |Run(claims).log|
    ensures var log := Run(claims).log; var c := log[j];
            && Sequence(c.workflow).Some? && 1 <= c.subcall <= |Sequence(c.workflow).value|
            && c.tool == Sequence(c.workflow).value[c.subcall - 1]
            && (c.subcall > 1 ==> exists i :: 0 <= i < j && log[i].nonce == c.nonce && log[i].subcall == c.subcall - 1)
            && |Run(claims).uses| <= 1024
  {
    ReachableInv(claims);
    hide Run, UseOk, OnRecord, Sequence, Successive, Timely, WellFormed;
    var log := Run(claims).log;
    assert Checked(log[j]);
    assert log[j].subcall > 1 ==> Seen(log[..j], log[j].nonce, log[j].subcall - 1);
    hide Inv, Allowlisted;
    if log[j].subcall > 1 {
      var i :| 0 <= i < |log[..j]| && log[..j][i].nonce == log[j].nonce && log[..j][i].subcall == log[j].subcall - 1;
      assert log[i] == log[..j][i];
    }
  }

  // ---------------------------------------------------------------- where the guarantee ends

  /** The claim is admitted on a new record, whatever was admitted for its capability before. */
  predicate StartsAnew(uses: Uses, c: Claim) {
    ClaimUse(uses, c).admitted && c.nonce !in Unexpired(uses, c.now)
  }

  lemma StartsAnewWhen(uses: Uses, c: Claim)
    requires Checked(c)
    ensures var live := Unexpired(uses, c.now);
            StartsAnew(uses, c) <==> c.nonce !in live && c.subcall == 1 && |live| < MAX_LIVE_CAPABILITIES
    ensures StartsAnew(uses, c) ==>
              ClaimUse(uses, c).uses
              == Unexpired(uses, c.now)[c.nonce := Use(c.expires, c.workflow, 1, map[1 := Subcall(c.Print(), c.attempt)])]
  {
    hide Checked, Unexpired;
    assert Use(c.expires, c.workflow, 0, map[]).subcalls[1 := Subcall(c.Print(), c.attempt)] == map[1 := Subcall(c.Print(), c.attempt)];
  }

  /** The condition is exact: after a timely trace, a capability that was admitted before starts anew
      with its next claim precisely when the ledger was purged at or after its expiry, by this claim or
      by any since, the claim is a first subcall and there is room. */
  lemma {:induction false} StartsAnewExactlyWhen(claims: seq<Claim>, i: nat, c: Claim)
    requires Timely(claims) && i < |claims| && Admits(claims, i) && c.nonce == claims[i].nonce && Checked(c)
    ensures var uses := Run(claims).uses;
            StartsAnew(uses, c) <==>
              PurgedSince(claims + [c], i) && c.subcall == 1 && |Unexpired(uses, c.now)| < MAX_LIVE_CAPABILITIES
  {
    StartsAnewWhen(Run(claims).uses, c);
    PurgedByLast(claims, c, i);
    if PurgedSince(claims, i) { ForgottenStays(claims, i); } else { RecordLasts(claims, i); }
    hide Run, ClaimUse, Checked, PurgedSince, Timely, Admits, StartsAnew;
  }

  lemma StartsFirst(c: Claim)
    requires Checked(c) && c.subcall == 1
    ensures Run([c]).log == [c]
    ensures Run([c]).uses == map[c.nonce := Use(c.expires, c.workflow, 1, map[1 := Subcall(c.Print(), c.attempt)])]
  {
    RunMore([], c);
    assert [] + [c] == [c];
    assert Run([]) == State(map[], []) by { hide Next; }
    assert Unexpired(map[], c.now) == map[];
    StartsAnewWhen(map[], c);
    hide Run, Checked, ClaimUse, Unexpired;
  }

  /** The step that starts anew, on its own. */
  lemma AdmitsAnew(s: State, c: Claim)
    requires Checked(c) && c.nonce !in Unexpired(s.uses, c.now) && c.subcall == 1
    requires |Unexpired(s.uses, c.now)| < MAX_LIVE_CAPABILITIES
    ensures Next(s, c).log == s.log + [c]
    ensures Next(s, c).uses
            == Unexpired(s.uses, c.now)[c.nonce := Use(c.expires, c.workflow, 1, map[1 := Subcall(c.Print(), c.attempt)])]
  {
    StartsAnewWhen(s.uses, c);
    hide Checked, ClaimUse, Unexpired;
  }

  /** So evaluating claims before their expiry is needed: the same attempt of a claim whose capability
      expires at that very moment is admitted a second time. */
  lemma {:induction false} ExpiryReadmits(c: Claim)
    requires Checked(c) && c.subcall == 1
    ensures var late := c.(now := c.expires); Run([c, late]).log == [c, late]
  {
    var late := c.(now := c.expires);
    assert Checked(late) by { hide Sequence; }
    hide Run, Next, Checked;
    StartsFirst(c);
    RunMore([c], late);
    assert [c] + [late] == [c, late];
    assert Unexpired(Run([c]).uses, late.now) == map[];
    hide Unexpired;
    AdmitsAnew(Run([c]), late);
  }

  /** And so is a clock that does not go back: another capability's claim forgets an expired one,
      and an earlier clock then admits the same attempt of it again. */
  lemma {:induction false} ClockGoingBackReadmits(c: Claim, other: Claim)
    requires Checked(c) && c.subcall == 1 && c.now < c.expires
    requires Checked(other) && other.subcall == 1 && other.now < other.expires
    requires other.nonce != c.nonce && c.expires <= other.now
    ensures Run([c, other, c]).log == [c, other, c]
  {
    ForgetsOther(c, other);
    RunMore([c, other], c);
    assert [c, other] + [c] == [c, other, c];
    hide Run, Next, Checked;
    OneLeft(Run([c, other]).uses, other.nonce, c.now);
    hide Unexpired;
    AdmitsAnew(Run([c, other]), c);
  }

  lemma ForgetsOther(c: Claim, other: Claim)
    requires Checked(c) && c.subcall == 1 && Checked(other) && other.subcall == 1
    requires other.nonce != c.nonce && c.expires <= other.now
    ensures Run([c, other]).log == [c, other] && Run([c, other]).uses.Keys == {other.nonce}
  {
    StartsFirst(c);
    RunMore([c], other);
    assert [c] + [other] == [c, other];
    hide Run, Next, Checked;
    assert Unexpired(Run([c]).uses, other.now) == map[];
    hide Unexpired;
    AdmitsAnew(Run([c]), other);
  }

  lemma OneLeft(uses: Uses, n: Nonce, now: int)
    requires uses.Keys == {n}
    ensures |Unexpired(uses, now)| <= 1 && Unexpired(uses, now).Keys <= {n}
  {
    var live := Unexpired(uses, now);
    assert |live| == |live.Keys|;
    if n in live { assert live.Keys == {n}; } else { assert live.Keys == {}; }
  }
}
