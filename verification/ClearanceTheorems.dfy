/** What holds over every interleaving of round trips: the theorems about the machine of ClearanceProtocol. */
module ClearanceTheorems {
  import opened Basics
  import opened ClearanceProtocol

  // ---------------------------------------------------------------- what the waiters are told

  /** The leader of call `c` unregistered with `outcome`. */
  ghost predicate Told(log: seq<Event>, c: nat, outcome: Outcome) {
    exists k :: 0 <= k < |log| && log[k].Unregistered? && log[k].call == c && log[k].outcome == outcome
  }

  ghost predicate NotEnded(log: seq<Event>, c: nat) {
    forall k | 0 <= k < |log| && log[k].Unregistered? :: log[k].call != c
  }

  /** The error a call carries is the leader's from the moment the leader may close it. */
  ghost predicate ErrorsSettled(s: State) {
    && (forall k | 0 <= k < |s.log| && s.log[k].Unregistered? :: s.log[k].call < |s.calls|)
    && (forall c | 0 <= c < |s.calls| && s.calls[c].closed :: Told(s.log, c, s.calls[c].err))
    && (forall p | p in s.procs && Leads(s.procs[p].pc) :: NotEnded(s.log, s.procs[p].pc.call))
    && (forall p | p in s.procs && (s.procs[p].pc.Finishing? || s.procs[p].pc.Closing?) ::
          && s.procs[p].pc.call < |s.calls| && s.calls[s.procs[p].pc.call].err == s.procs[p].pc.outcome
          && (s.procs[p].pc.Closing? ==> Told(s.log, s.procs[p].pc.call, s.procs[p].pc.outcome)))
  }

  /** Every waiter let go by a closed call took away the error its leader unregistered with, and a leader
      unregisters once. */
  ghost predicate WaitersToldTheTruth(log: seq<Event>) {
    && (forall i | 0 <= i < |log| && log[i].Released? :: Told(log[..i], log[i].call, log[i].outcome))
    && (forall i, j | 0 <= i < j < |log| && log[i].Unregistered? && log[j].Unregistered? :: log[i].call != log[j].call)
  }

  lemma ToldGrows(log: seq<Event>, more: seq<Event>, c: nat, outcome: Outcome)
    requires Told(log, c, outcome)
    ensures Told(log + more, c, outcome)
  {
    var k :| 0 <= k < |log| && log[k].Unregistered? && log[k].call == c && log[k].outcome == outcome;
    assert (log + more)[k] == log[k];
  }

  /** Steps of requests that lead nothing tell nothing. */
  lemma OutsideTells(s: State, t: State, p: Pid, more: seq<Event>)
    requires ErrorsSettled(s) && OutsideMove(s, t, p)
    requires t.log == s.log + more && forall i | 0 <= i < |more| :: !more[i].Unregistered?
    ensures ErrorsSettled(t)
  {
    forall c, o | Told(s.log, c, o) ensures Told(t.log, c, o) { ToldGrows(s.log, more, c, o); }
    forall k | 0 <= k < |t.log| && t.log[k].Unregistered? ensures k < |s.log| && t.log[k] == s.log[k] {
    }
  }

  /** A step of a leader that stays one; its call's error may change, and has changed once it is finishing. */
  ghost predicate LeaderTellsOwn(s: State, t: State, p: Pid) {
    && p in s.procs && Leads(s.procs[p].pc) && p in t.procs && Leads(t.procs[p].pc)
    && t.procs == s.procs[p := t.procs[p]] && t.procs[p].pc.call == s.procs[p].pc.call
    && |t.calls| == |s.calls|
    && (forall c | 0 <= c < |s.calls| && c != s.procs[p].pc.call :: t.calls[c] == s.calls[c])
    && (t.procs[p].pc.call < |s.calls| ==> t.calls[t.procs[p].pc.call].closed == s.calls[t.procs[p].pc.call].closed)
    && (t.procs[p].pc.Finishing? ==>
          t.procs[p].pc.call < |s.calls| && t.calls[t.procs[p].pc.call].err == t.procs[p].pc.outcome)
  }

  lemma LeaderTells(s: State, t: State, p: Pid, more: seq<Event>)
    requires ErrorsSettled(s) && SingleFlight(s) && CallsAlive(s) && LeaderTellsOwn(s, t, p)
    requires t.log == s.log + more && forall i | 0 <= i < |more| :: !more[i].Unregistered?
    ensures ErrorsSettled(t)
  {
    assert LeaderRegistered(s, p);
    forall c, o | Told(s.log, c, o) ensures Told(t.log, c, o) { ToldGrows(s.log, more, c, o); }
    forall k | 0 <= k < |t.log| && t.log[k].Unregistered? ensures k < |s.log| && t.log[k] == s.log[k] {
    }
    forall q | q in t.procs && q != p && (t.procs[q].pc.Finishing? || t.procs[q].pc.Closing?)
      ensures t.procs[q].pc.call != s.procs[p].pc.call
    {
      assert t.procs[q].pc.Finishing? ==> LeaderRegistered(s, q);
    }
  }

  lemma LeaderTellsShape(pol: Policy, s: State, p: Pid, step: SolveStep)
    requires p in s.procs && SolveEnabled(pol, s, s.procs[p], step) && !step.Unregister? && !step.CloseDone?
    ensures LeaderTellsOwn(s, DoSolve(pol, s, p, step), p)
  {
  }

  lemma RegisterTells(s: State, t: State, p: Pid, e: Event)
    requires ErrorsSettled(s) && Registers(s, t, p) && t.log == s.log + [e] && !e.Unregistered?
    ensures ErrorsSettled(t)
  {
    forall c, o | Told(s.log, c, o) ensures Told(t.log, c, o) { ToldGrows(s.log, [e], c, o); }
  }

  lemma UnregisterTells(s: State, t: State, p: Pid, e: Event)
    requires ErrorsSettled(s) && SingleFlight(s) && Unregisters(s, t, p) && t.procs[p].pc.outcome == s.procs[p].pc.outcome
    requires t.log == s.log + [e]
    requires e.Unregistered? && e.call == s.procs[p].pc.call && e.outcome == s.procs[p].pc.outcome
    ensures ErrorsSettled(t)
  {
    assert LeaderRegistered(s, p);
    forall c, o | Told(s.log, c, o) ensures Told(t.log, c, o) { ToldGrows(s.log, [e], c, o); }
    assert t.log[|s.log|] == e;
    forall q | q in t.procs && Leads(t.procs[q].pc) ensures NotEnded(t.log, t.procs[q].pc.call) {
      assert LeaderRegistered(s, q) && NotEnded(s.log, s.procs[q].pc.call);
    }
  }

  lemma CloseTells(s: State, t: State, p: Pid)
    requires ErrorsSettled(s) && Closes(s, t, p) && t.log == s.log
    ensures ErrorsSettled(t)
  {
  }

  lemma ClientTells(pol: Policy, s: State, p: Pid, step: ClientStep)
    requires ErrorsSettled(s) && p in s.procs && ClientEnabled(s, s.procs[p], step)
    ensures ErrorsSettled(DoClient(pol, s, p, step))
  {
    var t := DoClient(pol, s, p, step);
    ClientShape(pol, s, p, step);
    OutsideTells(s, t, p, t.log[|s.log|..]);
  }

  lemma GateTells(s: State, p: Pid, step: GateStep)
    requires SingleFlight(s) && ErrorsSettled(s) && p in s.procs && GateEnabled(s, s.procs[p], step)
    ensures ErrorsSettled(DoGate(s, p, step))
  {
    var t, d := DoGate(s, p, step), s.procs[p].req.domain;
    var more := t.log[|s.log|..];
    if step.Admit? {
      AdmitShape(s, p);
    } else {
      assert d in s.inflight ==> EntryLed(s, d) && LeaderRegistered(s, s.calls[s.inflight[d]].leader);
      GateShape(s, p, step);
    }
    if OutsideMove(s, t, p) { OutsideTells(s, t, p, more); } else { RegisterTells(s, t, p, more[0]); }
  }

  lemma SolveTells(pol: Policy, s: State, p: Pid, step: SolveStep)
    requires SingleFlight(s) && CallsAlive(s) && ErrorsSettled(s) && p in s.procs && SolveEnabled(pol, s, s.procs[p], step)
    ensures ErrorsSettled(DoSolve(pol, s, p, step))
  {
    var t, pc := DoSolve(pol, s, p, step), s.procs[p].pc;
    if step.Unregister? || step.CloseDone? {
      SolveBoundaryShape(pol, s, p, step);
      if step.Unregister? {
        UnregisterTells(s, t, p, Unregistered(s.procs[p].req.domain, pc.call, pc.outcome, s.now));
      } else {
        CloseTells(s, t, p);
      }
    } else {
      LeaderTellsShape(pol, s, p, step);
      LeaderTells(s, t, p, t.log[|s.log|..]);
    }
  }

  lemma ErrorsStep(pol: Policy, s: State, step: Step)
    requires SharedInv(pol, s) && ErrorsSettled(s) && Enabled(pol, s, step)
    ensures ErrorsSettled(Apply(pol, s, step))
  {
    var t := Apply(pol, s, step);
    match step
    case Tick(_) =>
    case Arrive(p, _) =>
      OutsideTells(s, t, p, []);
    case Client(p, client) =>
      ClientTells(pol, s, p, client);
    case Gate(p, gate) =>
      GateTells(s, p, gate);
    case Solve(p, solve) =>
      SolveTells(pol, s, p, solve);
  }

  lemma TruthStep(pol: Policy, s: State, t: State, e: Option<Event>)
    requires SingleFlight(s) && ErrorsSettled(s) && WaitersToldTheTruth(s.log) && Recorded(pol, s, t, e)
    ensures WaitersToldTheTruth(t.log)
  {
    var n := |s.log|;
    forall i | 0 <= i < |t.log| && t.log[i].Released? ensures Told(t.log[..i], t.log[i].call, t.log[i].outcome) {
      assert t.log[..i] == s.log[..i];
      if i == n { assert s.log[..n] == s.log; } else { assert t.log[i] == s.log[i]; }
    }
    if e.Some? && e.value.Unregistered? {
      assert EntryLed(s, e.value.domain);
      assert NotEnded(s.log, e.value.call);
    }
  }

  // ---------------------------------------------------------------- one round trip

  predicate InEnsureFresh(pc: Pc) {
    pc.Locking? || HoldsMutex(pc) || pc.Waiting? || Leads(pc) || pc.Closing? || pc.Replaying?
  }

  predicate AllClosed(responses: seq<Fate>) {
    forall i | 0 <= i < |responses| :: responses[i].Closed?
  }

  /** Every response but the last is closed; the last one is `last`. */
  predicate SettledBut(responses: seq<Fate>, last: Fate) {
    |responses| > 0 && responses[|responses| - 1] == last && AllClosed(responses[..|responses| - 1])
  }

  predicate RoundTripSound(pol: Policy, proc: Proc) {
    && 1 <= proc.attempt <= Max(0, pol.maxSolvesPerRequest) + 1
    && (proc.pc.Decorating? ==>
          proc.sends == proc.freshCalls == |proc.responses| == proc.attempt - 1 && AllClosed(proc.responses))
    && (proc.pc.Sending? ==>
          proc.sends == proc.attempt && proc.freshCalls == |proc.responses| == proc.attempt - 1 && AllClosed(proc.responses))
    && (InEnsureFresh(proc.pc) ==>
          && proc.sends == proc.freshCalls == |proc.responses| == proc.attempt <= pol.maxSolvesPerRequest
          && SettledBut(proc.responses, Open) && proc.req.Replayable())
    && (proc.pc.Done? ==>
          && proc.sends == proc.attempt && proc.freshCalls <= Max(0, pol.maxSolvesPerRequest)
          && (|| (|proc.responses| == proc.attempt - 1 && AllClosed(proc.responses))
              || (|proc.responses| == proc.attempt && SettledBut(proc.responses, Returned))
              || (|proc.responses| == proc.attempt && AllClosed(proc.responses) && proc.req.getBody)))
  }

  ghost predicate RoundTripsSound(pol: Policy, s: State) {
    forall p | p in s.procs :: RoundTripSound(pol, s.procs[p])
  }

  lemma SettleLast(responses: seq<Fate>)
    requires SettledBut(responses, Open)
    ensures SettledBut(Settle(responses, Returned), Returned) && |Settle(responses, Returned)| == |responses|
    ensures AllClosed(Settle(responses, Closed)) && |Settle(responses, Closed)| == |responses|
  {
    var n := |responses| - 1;
    assert Settle(responses, Returned)[..n] == responses[..n];
  }

  lemma AnsweredRoundTrip(pol: Policy, s: State, p: Pid, challenged: bool)
    requires p in s.procs && s.procs[p].pc.Sending? && RoundTripSound(pol, s.procs[p])
    ensures var t := Answered(pol, s, p, challenged); p in t.procs && RoundTripSound(pol, t.procs[p])
  {
    var r := s.procs[p].responses;
    assert (r + [Open])[..|r|] == r;
    assert Settle(r + [Open], Returned)[..|r|] == r;
  }

  lemma ClientRoundTrip(pol: Policy, s: State, p: Pid, step: ClientStep)
    requires p in s.procs && ClientEnabled(s, s.procs[p], step) && RoundTripSound(pol, s.procs[p])
    ensures var t := DoClient(pol, s, p, step); p in t.procs && RoundTripSound(pol, t.procs[p])
  {
    if step.BaseAnswers? {
      AnsweredRoundTrip(pol, s, p, step.challenged);
    } else if InEnsureFresh(s.procs[p].pc) {
      SettleLast(s.procs[p].responses);
    }
  }

  lemma GateRoundTrip(pol: Policy, s: State, p: Pid, step: GateStep)
    requires p in s.procs && GateEnabled(s, s.procs[p], step) && RoundTripSound(pol, s.procs[p])
    ensures var t := DoGate(s, p, step); p in t.procs && RoundTripSound(pol, t.procs[p])
  {
    SettleLast(s.procs[p].responses);
  }

  lemma SolveRoundTrip(pol: Policy, s: State, p: Pid, step: SolveStep)
    requires p in s.procs && SolveEnabled(pol, s, s.procs[p], step) && RoundTripSound(pol, s.procs[p])
    ensures var t := DoSolve(pol, s, p, step); p in t.procs && RoundTripSound(pol, t.procs[p])
  {
    SettleLast(s.procs[p].responses);
  }

  /** A step touches the request that takes it and no other. */
  lemma ClientTouches(pol: Policy, s: State, p: Pid, step: ClientStep)
    requires p in s.procs && ClientEnabled(s, s.procs[p], step)
    ensures var t := DoClient(pol, s, p, step); p in t.procs && t.procs == s.procs[p := t.procs[p]]
  {
  }

  lemma GateTouches(s: State, p: Pid, step: GateStep)
    requires p in s.procs && GateEnabled(s, s.procs[p], step)
    ensures var t := DoGate(s, p, step); p in t.procs && t.procs == s.procs[p := t.procs[p]]
  {
  }

  lemma SolveTouches(pol: Policy, s: State, p: Pid, step: SolveStep)
    requires p in s.procs && SolveEnabled(pol, s, s.procs[p], step)
    ensures var t := DoSolve(pol, s, p, step); p in t.procs && t.procs == s.procs[p := t.procs[p]]
  {
  }

  lemma RoundTripStep(pol: Policy, s: State, step: Step)
    requires RoundTripsSound(pol, s) && Enabled(pol, s, step)
    ensures RoundTripsSound(pol, Apply(pol, s, step))
  {
    match step
    case Tick(_) =>
    case Arrive(p, _) =>
    case Client(p, client) =>
      ClientRoundTrip(pol, s, p, client);
      ClientTouches(pol, s, p, client);
    case Gate(p, gate) =>
      GateRoundTrip(pol, s, p, gate);
      GateTouches(s, p, gate);
    case Solve(p, solve) =>
      SolveRoundTrip(pol, s, p, solve);
      SolveTouches(pol, s, p, solve);
  }

  // ---------------------------------------------------------------- progress

  /** How far a round trip is from its end, within one attempt. */
  function Distance(pc: Pc): nat {
    match pc
    case Decorating => 14
    case Sending(_) => 13
    case Locking(_) => 12
    case Looking(_) => 11
    case Checking(_) => 10
    case Admitting(_) => 9
    case Waiting(_) => 8
    case SlotWait(_, _) => 8
    case Solving(_, _) => 7
    case Saving(_, _, _) => 6
    case Releasing(_, _, _) => 5
    case Reporting(_, _, _) => 4
    case Finishing(_, _, _) => 3
    case Closing(_, _) => 2
    case Replaying => 1
    case Done => 0
  }

  function Rank(pol: Policy, proc: Proc): nat {
    15 * Max(0, Max(0, pol.maxSolvesPerRequest) + 1 - proc.attempt) + Distance(proc.pc)
  }

  lemma ClientAdvances(pol: Policy, s: State, p: Pid, step: ClientStep)
    requires p in s.procs && ClientEnabled(s, s.procs[p], step)
    ensures var t := DoClient(pol, s, p, step);
            && p in t.procs
            && if step.Replay? then t.procs[p].attempt == s.procs[p].attempt + 1
               else t.procs[p].attempt == s.procs[p].attempt && Distance(t.procs[p].pc) < Distance(s.procs[p].pc)
  {
  }

  lemma AdmitAdvances(s: State, p: Pid)
    requires p in s.procs && s.procs[p].pc.Admitting?
    ensures var t := DoAdmit(s, p);
            && p in t.procs && t.procs[p].attempt == s.procs[p].attempt
            && Distance(t.procs[p].pc) < Distance(s.procs[p].pc)
  {
  }

  lemma GateAdvances(s: State, p: Pid, step: GateStep)
    requires p in s.procs && GateEnabled(s, s.procs[p], step)
    ensures var t := DoGate(s, p, step);
            && p in t.procs && t.procs[p].attempt == s.procs[p].attempt
            && Distance(t.procs[p].pc) < Distance(s.procs[p].pc)
  {
    if step.Admit? {
      AdmitAdvances(s, p);
      assert DoGate(s, p, step) == DoAdmit(s, p);
    }
  }

  lemma SolveAdvances(pol: Policy, s: State, p: Pid, step: SolveStep)
    requires p in s.procs && SolveEnabled(pol, s, s.procs[p], step)
    ensures var t := DoSolve(pol, s, p, step);
            && p in t.procs && t.procs[p].attempt == s.procs[p].attempt
            && Distance(t.procs[p].pc) < Distance(s.procs[p].pc)
  {
  }

  /** Every step of a round trip brings it closer to its end. */
  lemma RankFalls(pol: Policy, s: State, step: Step)
    requires RoundTripsSound(pol, s) && Enabled(pol, s, step) && (step.Client? || step.Gate? || step.Solve?)
    ensures var t := Apply(pol, s, step);
            step.p in t.procs && Rank(pol, t.procs[step.p]) < Rank(pol, s.procs[step.p])
  {
    assert RoundTripSound(pol, s.procs[step.p]);
    match step
    case Client(p, client) => ClientAdvances(pol, s, p, client);
    case Gate(p, gate) => GateAdvances(s, p, gate);
    case Solve(p, solve) => SolveAdvances(pol, s, p, solve);
  }

  /** The step a request would take next, were it alone. */
  function NextStep(s: State, p: Pid): Step
    requires p in s.procs
  {
    match s.procs[p].pc
    case Decorating => Client(p, Decorate)
    case Sending(_) => Client(p, BaseAnswers(false))
    case Locking(_) => Gate(p, Acquire)
    case Looking(_) => Gate(p, Look)
    case Checking(_) => Gate(p, Check)
    case Admitting(_) => Gate(p, Admit)
    case Waiting(_) => Client(p, Release)
    case SlotWait(_, _) => Solve(p, TakeSlot)
    case Solving(_, _) => Solve(p, SolverAnswers(None))
    case Saving(_, _, _) => Solve(p, Save)
    case Releasing(_, _, _) => Solve(p, ReleaseSlot)
    case Reporting(_, _, _) => Solve(p, Report)
    case Finishing(_, _, _) => Solve(p, Unregister)
    case Closing(_, _) => Solve(p, CloseDone)
    case Replaying => Client(p, Replay)
    case Done => Tick(0)
  }

  /** Whom a request that cannot move is waiting for: the mutex holder, or the leader of the call it shares. */
  ghost predicate WaitsFor(s: State, p: Pid, q: Pid)
    requires p in s.procs
  {
    && q in s.procs
    && (|| ((s.procs[p].pc.Locking? || s.procs[p].pc.Finishing?) && HoldsMutex(s.procs[q].pc))
        || (s.procs[p].pc.Waiting? && (Leads(s.procs[q].pc) || s.procs[q].pc.Closing?)))
  }

  lemma WaiterWaits(pol: Policy, s: State, p: Pid) returns (q: Pid)
    requires SharedInv(pol, s) && p in s.procs && s.procs[p].pc.Waiting?
    ensures Enabled(pol, s, NextStep(s, p)) || WaitsFor(s, p, q)
  {
    var call := s.procs[p].pc.call;
    assert s.calls[call].closed || CallLed(s, call);
    q := s.calls[call].leader;
  }

  lemma LeaderMoves(pol: Policy, s: State, p: Pid)
    requires SharedInv(pol, s) && p in s.procs && Leads(s.procs[p].pc)
    ensures || Enabled(pol, s, NextStep(s, p))
            || (s.procs[p].pc.SlotWait? && s.slots >= pol.maxConcurrentSolves)
            || (s.procs[p].pc.Finishing? && s.mutex.Some?)
  {
    assert LeaderRegistered(s, p);
    if HoldsSlot(s.procs[p].pc) {
      assert p in SlotHolders(s);
    }
  }

  lemma MovesOrWaits(pol: Policy, s: State, p: Pid) returns (q: Pid)
    requires SharedInv(pol, s) && p in s.procs && !s.procs[p].pc.Done?
    ensures || Enabled(pol, s, NextStep(s, p))
            || (s.procs[p].pc.SlotWait? && s.slots >= pol.maxConcurrentSolves)
            || WaitsFor(s, p, q)
  {
    var pc := s.procs[p].pc;
    q := p;
    if pc.Waiting? {
      q := WaiterWaits(pol, s, p);
    } else if (pc.Locking? || pc.Finishing?) && s.mutex.Some? {
      q := s.mutex.value;
    } else if Leads(pc) {
      LeaderMoves(pol, s, p);
    }
  }

  lemma MutexHolderMoves(pol: Policy, s: State, p: Pid)
    requires SharedInv(pol, s) && p in s.procs && HoldsMutex(s.procs[p].pc)
    ensures Enabled(pol, s, NextStep(s, p))
  {
  }

  lemma SlotHolderMoves(pol: Policy, s: State, p: Pid)
    requires SharedInv(pol, s) && p in s.procs && HoldsSlot(s.procs[p].pc)
    ensures Enabled(pol, s, NextStep(s, p))
  {
    assert p in SlotHolders(s);
  }

  lemma HolderMoves(pol: Policy, s: State, p: Pid)
    requires SharedInv(pol, s) && p in s.procs && (HoldsMutex(s.procs[p].pc) || HoldsSlot(s.procs[p].pc))
    ensures Enabled(pol, s, NextStep(s, p))
  {
    if HoldsMutex(s.procs[p].pc) { MutexHolderMoves(pol, s, p); } else { SlotHolderMoves(pol, s, p); }
  }

  /** No deadlock: while some round trip is not done, some request can move, with no help from a timeout or
      a cancellation. */
  lemma NoDeadlock(pol: Policy, s: State, p: Pid) returns (q: Pid)
    requires SharedInv(pol, s) && 1 <= pol.maxConcurrentSolves && p in s.procs && !s.procs[p].pc.Done?
    ensures q in s.procs && !s.procs[q].pc.Done? && Enabled(pol, s, NextStep(s, q))
  {
    q := p;
    var r := MovesOrWaits(pol, s, q);
    if !Enabled(pol, s, NextStep(s, q)) && s.procs[q].pc.Waiting? {
      q := r;
      r := MovesOrWaits(pol, s, q);
    }
    if !Enabled(pol, s, NextStep(s, q)) {
      if s.procs[q].pc.SlotWait? {
        q :| q in SlotHolders(s);
      } else {
        q := r;
      }
      HolderMoves(pol, s, q);
    }
  }

  // ---------------------------------------------------------------- every run

  ghost predicate Safe(pol: Policy, s: State) {
    && SharedInv(pol, s) && OneLeaderPerDomain(s) && RoundTripsSound(pol, s)
    && CooldownKept(pol, s.log) && SolvesUndisturbed(s.log)
    && SavesAreFresh(s.log) && StoreWasSaved(s) && WaitersToldTheTruth(s.log)
  }

  ghost predicate Inv(pol: Policy, s: State) {
    Safe(pol, s) && CooldownNoted(pol, s) && OpenInFlight(s) && ErrorsSettled(s)
  }

  lemma OneLeader(s: State)
    requires SingleFlight(s)
    ensures OneLeaderPerDomain(s)
  {
    forall p, q | p in s.procs && q in s.procs && Leads(s.procs[p].pc) && Leads(s.procs[q].pc)
                  && s.procs[p].req.domain == s.procs[q].req.domain
      ensures p == q
    {
      assert LeaderRegistered(s, p) && LeaderRegistered(s, q);
    }
  }

  lemma InvStep(pol: Policy, s: State, step: Step)
    requires Inv(pol, s) && Enabled(pol, s, step)
    ensures Inv(pol, Apply(pol, s, step))
  {
    var t := Apply(pol, s, step);
    var e := StepRecords(pol, s, step);
    SharedStep(pol, s, step);
    OneLeader(t);
    RoundTripStep(pol, s, step);
    CooldownStep(pol, s, t, e);
    UndisturbedStep(pol, s, t, e);
    StoreStep(pol, s, t, e);
    ErrorsStep(pol, s, step);
    TruthStep(pol, s, t, e);
  }

  lemma {:induction false} InvRun(pol: Policy, s: State, steps: seq<Step>)
    requires Inv(pol, s) && ValidRun(pol, s, steps)
    ensures Inv(pol, After(pol, s, steps))
    decreases |steps|
  {
    if steps != [] {
      InvStep(pol, s, steps[0]);
      InvRun(pol, Apply(pol, s, steps[0]), steps[1..]);
    }
  }

  lemma InitInv(now: int, pol: Policy)
    ensures Inv(pol, Init(now))
  {
    assert SlotHolders(Init(now)) == {};
  }

  /** Safety over whole runs, from an empty transport, whatever the interleaving. */
  lemma EveryRunIsSafe(pol: Policy, now: int, steps: seq<Step>)
    requires ValidRun(pol, Init(now), steps)
    ensures Safe(pol, After(pol, Init(now), steps))
  {
    InitInv(now, pol);
    InvRun(pol, Init(now), steps);
  }

  function StepsOf(steps: seq<Step>, p: Pid): nat {
    if steps == [] then 0
    else (if !steps[0].Tick? && !steps[0].Arrive? && steps[0].p == p then 1 else 0) + StepsOf(steps[1..], p)
  }

  /** A round trip takes a bounded number of steps, however many others run beside it: with NoDeadlock, each
      one comes to its end once nothing more arrives. */
  lemma {:induction false} RoundTripIsBounded(pol: Policy, s: State, steps: seq<Step>, p: Pid)
    requires RoundTripsSound(pol, s) && ValidRun(pol, s, steps)
    ensures StepsOf(steps, p) <= if p in s.procs then Rank(pol, s.procs[p]) else 15 * Max(0, pol.maxSolvesPerRequest) + 14
    decreases |steps|
  {
    if steps != [] {
      var t := Apply(pol, s, steps[0]);
      RoundTripStep(pol, s, steps[0]);
      RoundTripIsBounded(pol, t, steps[1..], p);
      match steps[0]
      case Tick(_) =>
      case Arrive(q, _) =>
      case Client(q, client) => ClientTouches(pol, s, q, client); RankFalls(pol, s, steps[0]);
      case Gate(q, gate) => GateTouches(s, q, gate); RankFalls(pol, s, steps[0]);
      case Solve(q, solve) => SolveTouches(pol, s, q, solve); RankFalls(pol, s, steps[0]);
    }
  }
}
