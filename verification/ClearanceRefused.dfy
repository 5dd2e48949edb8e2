/** What becomes of a request whose stored clearance has just been refused (internal/cfclearance/transport.go:113-145),
    over every run in which nobody else changes what is stored for its domain: ensureFresh compares the first stored
    value with the last, so a store on which the two differ is never solved again. */
module ClearanceRefused {
  import opened Basics
  import opened CookieRules
  import opened ClearanceProtocol
  import opened ClearanceTheorems

  /** Throughout the run the store holds `c` for the domain. */
  ghost predicate Unchanged(pol: Policy, s: State, steps: seq<Step>, d: Domain, c: Clearance)
    requires ValidRun(pol, s, steps)
    decreases |steps|
  {
    StoredFor(s, d) == c && (steps == [] || Unchanged(pol, Apply(pol, s, steps[0]), steps[1..], d, c))
  }

  function SentWith(c: Clearance, req: Request): string {
    SentClearance(c, req.url, req.callerHasOwn)
  }

  predicate Differ(c: Clearance, req: Request) {
    WalksDiffer(ApplicableValues(c.cookies, req.url), req.callerHasOwn)
  }

  /** Whatever value the request carries to ensureFresh is the one it was decorated with. */
  ghost predicate Carries(s: State, p: Pid, req: Request, c: Clearance) {
    && p in s.procs && s.procs[p].req == req
    && (s.procs[p].pc.Sending? ==> s.procs[p].pc.sent == SentWith(c, req))
    && (s.procs[p].pc.Locking? || s.procs[p].pc.Looking? ==> s.procs[p].pc.rejected == SentWith(c, req))
  }

  lemma ClientCarries(pol: Policy, s: State, p: Pid, step: ClientStep, req: Request, c: Clearance)
    requires Carries(s, p, req, c) && ClientEnabled(s, s.procs[p], step) && StoredFor(s, req.domain) == c
    ensures Carries(DoClient(pol, s, p, step), p, req, c)
  {
  }

  lemma GateCarries(s: State, p: Pid, step: GateStep, req: Request, c: Clearance)
    requires Carries(s, p, req, c) && GateEnabled(s, s.procs[p], step)
    ensures Carries(DoGate(s, p, step), p, req, c)
  {
  }

  lemma SolveCarries(pol: Policy, s: State, p: Pid, step: SolveStep, req: Request, c: Clearance)
    requires Carries(s, p, req, c) && SolveEnabled(pol, s, s.procs[p], step)
    ensures Carries(DoSolve(pol, s, p, step), p, req, c)
  {
  }

  predicate TakenBy(step: Step, p: Pid) {
    (step.Client? || step.Gate? || step.Solve?) && step.p == p
  }

  lemma ClientRegistersNone(pol: Policy, s: State, q: Pid, step: ClientStep, p: Pid)
    requires q in s.procs && ClientEnabled(s, s.procs[q], step) && LeadsNothing(s, p)
    ensures LeadsNothing(DoClient(pol, s, q, step), p)
  {
    assert DoClient(pol, s, q, step).calls == s.calls;
  }

  lemma GateRegistersOwn(s: State, q: Pid, step: GateStep, p: Pid)
    requires q in s.procs && GateEnabled(s, s.procs[q], step) && LeadsNothing(s, p) && q != p
    ensures LeadsNothing(DoGate(s, q, step), p)
  {
    assert !step.Admit? ==> DoGate(s, q, step).calls == s.calls;
  }

  lemma SolveRegistersNone(pol: Policy, s: State, q: Pid, step: SolveStep, p: Pid)
    requires q in s.procs && SolveEnabled(pol, s, s.procs[q], step) && LeadsNothing(s, p)
    ensures LeadsNothing(DoSolve(pol, s, q, step), p)
  {
    assert !step.Report? && !step.CloseDone? ==> DoSolve(pol, s, q, step).calls == s.calls;
  }

  /** Steps of others leave a request as it is, and register no solve in its name. */
  lemma OthersLeave(pol: Policy, s: State, step: Step, p: Pid)
    requires Enabled(pol, s, step) && p in s.procs && !TakenBy(step, p)
    ensures var t := Apply(pol, s, step);
            && p in t.procs && t.procs[p] == s.procs[p]
            && (LeadsNothing(s, p) ==> LeadsNothing(t, p))
  {
    match step
    case Tick(_) =>
    case Arrive(_, _) =>
    case Client(q, client) =>
      ClientTouches(pol, s, q, client);
      if LeadsNothing(s, p) {
        ClientRegistersNone(pol, s, q, client, p);
      }
    case Gate(q, gate) =>
      GateTouches(s, q, gate);
      if LeadsNothing(s, p) {
        GateRegistersOwn(s, q, gate, p);
      }
    case Solve(q, solve) =>
      SolveTouches(pol, s, q, solve);
      if LeadsNothing(s, p) {
        SolveRegistersNone(pol, s, q, solve, p);
      }
  }

  lemma CarriesStep(pol: Policy, s: State, step: Step, p: Pid, req: Request, c: Clearance)
    requires Enabled(pol, s, step) && Carries(s, p, req, c) && StoredFor(s, req.domain) == c
    ensures Carries(Apply(pol, s, step), p, req, c)
  {
    if !TakenBy(step, p) {
      OthersLeave(pol, s, step, p);
    } else {
      match step
      case Client(_, client) => ClientCarries(pol, s, p, client, req, c);
      case Gate(_, gate) => GateCarries(s, p, gate, req, c);
      case Solve(_, solve) => SolveCarries(pol, s, p, solve, req, c);
    }
  }

  /** The look goes on to a replay exactly when the two walks differ, and to the check otherwise. */
  lemma LookDecides(s: State, p: Pid, req: Request, c: Clearance)
    requires Carries(s, p, req, c) && s.procs[p].pc.Looking? && StoredFor(s, req.domain) == c
    ensures DoGate(s, p, Look).procs[p].pc == if Differ(c, req) then Replaying else Checking(SentWith(c, req))
  {
  }

  /** On an unchanged store, at every attempt: the refused value is taken for a fresh one, and replayed without a
      solve, exactly when the two walks differ. */
  lemma {:induction false} RefusedValueLooksFresh(pol: Policy, s: State, steps: seq<Step>, p: Pid, req: Request, c: Clearance)
    requires ValidRun(pol, s, steps) && Unchanged(pol, s, steps, req.domain, c) && Carries(s, p, req, c)
    ensures var t := After(pol, s, steps);
            && Carries(t, p, req, c)
            && (t.procs[p].pc.Looking? ==>
                  DoGate(t, p, Look).procs[p].pc == if Differ(c, req) then Replaying else Checking(SentWith(c, req)))
    decreases |steps|
  {
    if steps == [] {
      if s.procs[p].pc.Looking? {
        LookDecides(s, p, req, c);
      }
    } else {
      CarriesStep(pol, s, steps[0], p, req, c);
      RefusedValueLooksFresh(pol, Apply(pol, s, steps[0]), steps[1..], p, req, c);
    }
  }

  // ---------------------------------------------------------------- never solved again

  ghost predicate LeadsNothing(s: State, p: Pid) {
    forall i | 0 <= i < |s.calls| :: s.calls[i].leader != p
  }

  /** The round trip goes round without ever coming to the check; `challenged` says that every answer so far was a
      challenge and every rewind worked. */
  ghost predicate GoesRound(pol: Policy, s: State, p: Pid, req: Request, c: Clearance, challenged: bool) {
    && Carries(s, p, req, c) && LeadsNothing(s, p)
    && var proc := s.procs[p];
       && (proc.pc.Decorating? || proc.pc.Sending? || proc.pc.Locking? || proc.pc.Looking? || proc.pc.Replaying? || proc.pc.Done?)
       && 1 <= proc.attempt <= Max(0, pol.maxSolvesPerRequest) + 1
       && proc.sends == (if proc.pc.Decorating? then proc.attempt - 1 else proc.attempt)
       && (proc.pc.Locking? || proc.pc.Looking? || proc.pc.Replaying? ==>
             proc.attempt <= pol.maxSolvesPerRequest && req.Replayable())
       && (challenged && proc.pc.Done? ==>
             && (proc.attempt > pol.maxSolvesPerRequest || !req.Replayable())
             && proc.responses != [] && proc.responses[|proc.responses| - 1] == Returned)
       && (proc.attempt > 1 ==> req.Replayable())
  }

  /** The base transport neither fails nor lets the request through, and GetBody works. */
  predicate IsChallenge(step: Step, p: Pid) {
    TakenBy(step, p) && step.Client? ==> !step.client.BaseFails? && !step.client.RewindFails? && step.client != BaseAnswers(false)
  }

  lemma ClientGoesRound(pol: Policy, s: State, p: Pid, step: ClientStep, req: Request, c: Clearance, challenged: bool)
    requires GoesRound(pol, s, p, req, c, challenged) && ClientEnabled(s, s.procs[p], step) && StoredFor(s, req.domain) == c
    ensures GoesRound(pol, DoClient(pol, s, p, step), p, req, c, challenged && IsChallenge(Client(p, step), p))
  {
    ClientCarries(pol, s, p, step, req, c);
    match step {
      case Decorate =>
      case BaseFails =>
      case BaseAnswers(_) =>
      case Release =>
      case WaitCancelled =>
      case Replay =>
      case RewindFails =>
    }
  }

  lemma GateGoesRound(pol: Policy, s: State, p: Pid, step: GateStep, req: Request, c: Clearance, challenged: bool)
    requires GoesRound(pol, s, p, req, c, challenged) && GateEnabled(s, s.procs[p], step) && StoredFor(s, req.domain) == c
    requires Differ(c, req)
    ensures GoesRound(pol, DoGate(s, p, step), p, req, c, challenged)
  {
    GateCarries(s, p, step, req, c);
    if step.Look? {
      LookDecides(s, p, req, c);
    }
  }

  lemma RoundStep(pol: Policy, s: State, step: Step, p: Pid, req: Request, c: Clearance, challenged: bool)
    requires Enabled(pol, s, step) && GoesRound(pol, s, p, req, c, challenged)
    requires StoredFor(s, req.domain) == c && Differ(c, req)
    ensures GoesRound(pol, Apply(pol, s, step), p, req, c, challenged && IsChallenge(step, p))
  {
    if !TakenBy(step, p) {
      OthersLeave(pol, s, step, p);
    } else if step.Client? {
      ClientGoesRound(pol, s, p, step.client, req, c, challenged);
    } else if step.Gate? {
      GateGoesRound(pol, s, p, step.gate, req, c, challenged);
    }
  }

  predicate AllChallenges(steps: seq<Step>, p: Pid) {
    forall i | 0 <= i < |steps| :: IsChallenge(steps[i], p)
  }

  lemma {:induction false} RoundRun(pol: Policy, s: State, steps: seq<Step>, p: Pid, req: Request, c: Clearance, challenged: bool)
    requires ValidRun(pol, s, steps) && Unchanged(pol, s, steps, req.domain, c) && Differ(c, req)
    requires GoesRound(pol, s, p, req, c, challenged)
    ensures GoesRound(pol, After(pol, s, steps), p, req, c, challenged && AllChallenges(steps, p))
    decreases |steps|
  {
    if steps != [] {
      var next := challenged && IsChallenge(steps[0], p);
      RoundStep(pol, s, steps[0], p, req, c, challenged);
      RoundRun(pol, Apply(pol, s, steps[0]), steps[1..], p, req, c, next);
      assert AllChallenges(steps, p) <==> IsChallenge(steps[0], p) && AllChallenges(steps[1..], p) by {
        assert forall i | 0 < i < |steps| :: steps[i] == steps[1..][i - 1];
      }
    }
  }

  /** A request that finds such a store never comes to the check, never starts a solve and never waits for one; if it
      is challenged every time, it ends with the challenge after all the sends it may make. */
  lemma NeverSolvedAgain(pol: Policy, s: State, steps: seq<Step>, p: Pid, req: Request, c: Clearance)
    requires p !in s.procs && LeadsNothing(s, p)
    requires ValidRun(pol, s, [Arrive(p, req)] + steps) && Unchanged(pol, s, [Arrive(p, req)] + steps, req.domain, c)
    requires Differ(c, req)
    ensures var t := After(pol, s, [Arrive(p, req)] + steps);
            && p in t.procs && LeadsNothing(t, p)
            && !t.procs[p].pc.Checking? && !t.procs[p].pc.Admitting? && !t.procs[p].pc.Waiting? && !Leads(t.procs[p].pc)
            && (AllChallenges(steps, p) && t.procs[p].pc.Done? ==>
                  && t.procs[p].sends == (if req.Replayable() then Max(0, pol.maxSolvesPerRequest) + 1 else 1)
                  && t.procs[p].responses != [] && t.procs[p].responses[|t.procs[p].responses| - 1] == Returned)
  {
    var run := [Arrive(p, req)] + steps;
    assert run[1..] == steps && run[0] == Arrive(p, req);
    RoundRun(pol, Apply(pol, s, run[0]), steps, p, req, c, true);
  }
}
