/** The transport object and its methods (internal/cfclearance/transport.go): each critical section, run to
    its end, does to the fields what the machine's steps do to the shared state; the round-trip loop, run
    against any base transport, stops where it should. */
module ClearanceTransport {
  import opened Basics
  import opened CookieRules
  import opened ClearanceProtocol
  import opened ClearanceTheorems

  /** The three gate steps in a row, which the mutex keeps together but for other domains' saves. */
  ghost function OpenSection(s: State, p: Pid): (t: State)
    requires p in s.procs && s.procs[p].pc.Looking?
    ensures p in t.procs
  {
    var s1 := DoGate(s, p, Look);
    if !s1.procs[p].pc.Checking? then s1
    else
      var s2 := DoGate(s1, p, Check);
      if !s2.procs[p].pc.Admitting? then s2 else DoGate(s2, p, Admit)
  }

  /** What one base round trip came back with. */
  datatype BaseAnswer = BaseError | Page | Challenge

  /** What RoundTrip hands its caller: the response of one attempt, or an error. */
  datatype Reply = Response(attempt: nat) | TransportError | RewindError

  class Transport {
    const policy: Policy
    var inflight: map<Domain, nat>
    var cooldown: map<Domain, int>
    var store: map<Domain, Clearance>
    var slots: nat
    var calls: seq<Call>

    /** The fields show the shared state of `s`. */
    ghost predicate Shows(s: State)
      reads this
    {
      inflight == s.inflight && cooldown == s.cooldown && store == s.store && slots == s.slots && calls == s.calls
    }

    constructor (policy: Policy, ghost now: int)
      requires 0 <= policy.maxConcurrentSolves
      ensures this.policy == WithDefaults(policy) && 1 <= this.policy.maxConcurrentSolves
      ensures this.policy.maxSolvesPerRequest == (if policy.maxSolvesPerRequest == 0 then 2 else policy.maxSolvesPerRequest)
      ensures this.policy.cooldown == (if policy.cooldown == 0 then 10 * 60 else policy.cooldown)
      ensures this.policy.maxConcurrentSolves == (if policy.maxConcurrentSolves == 0 then 1 else policy.maxConcurrentSolves)
      ensures Shows(Init(now))
    {
      this.policy := WithDefaults(policy);
      inflight, cooldown, store, slots, calls := map[], map[], map[], 0, [];
    }

    /** The cooldown and, past it, the registration of a new solve. */
    method AdmitSolve(ghost s: State, p: Pid, req: Request, rejected: string, now: int) returns (next: Pc)
      requires Shows(s) && p in s.procs && s.procs[p].req == req && s.procs[p].pc == Admitting(rejected) && s.now == now
      modifies this`inflight, this`calls
      ensures Shows(DoAdmit(s, p)) && DoAdmit(s, p).procs[p].pc == next
    {
      var d := req.domain;
      if d in cooldown && now < cooldown[d] {
        return Done;
      }
      var call := |calls|;
      calls := calls + [Call(d, p, Solved, false)];
      inflight := inflight[d := call];
      return SlotWait(call, rejected);
    }

    /** ensureFresh up to its first unlock: where the request goes from there. */
    method OpenEnsureFresh(ghost s: State, p: Pid, req: Request, rejected: string, now: int) returns (next: Pc)
      requires Shows(s) && p in s.procs && s.procs[p].req == req && s.procs[p].pc == Looking(rejected) && s.now == now
      modifies this`inflight, this`store, this`calls
      ensures Shows(OpenSection(s, p)) && OpenSection(s, p).procs[p].pc == next
    {
      var d := req.domain;
      var current := "";
      if d in store {
        current := FindCurrentClearance(store[d], req.url);
      }
      ghost var s1 := DoGate(s, p, Look);
      assert s1.procs[p].req == req && Shows(s1);
      if current != "" && current != rejected {
        return Replaying;
      }
      assert s1.procs[p].pc == Checking(rejected);
      ghost var s2 := DoGate(s1, p, Check);
      assert s2.procs[p].req == req && s2.now == now && s2.calls == calls && s2.inflight == inflight && s2.cooldown == cooldown;
      if d in inflight {
        return Waiting(inflight[d]);
      }
      if rejected != "" {
        store := store - {d};
      }
      assert Shows(s2) && s2.procs[p].pc == Admitting(rejected) && OpenSection(s, p) == DoAdmit(s2, p);
      next := AdmitSolve(s2, p, req, rejected, now);
    }

    /** What runSolver does with the solver's answer, the save included. */
    method FinishSolve(ghost pol: Policy, ghost s: State, p: Pid, req: Request, call: nat, rejected: string, got: Option<Clearance>)
      returns (outcome: Outcome)
      requires Shows(s) && p in s.procs && s.procs[p].req == req && s.procs[p].pc == Solving(call, rejected)
      modifies this`store
      ensures outcome.Solved? <==> got.Some? && HasFreshClearance(got.value.cookies, rejected) && got.value.userAgent != ""
      ensures var s1 := DoSolve(pol, s, p, SolverAnswers(got));
              if outcome.Solved? then Shows(DoSolve(pol, s1, p, Save))
              else Shows(s1) && s1.procs[p].pc == Releasing(call, outcome, None)
      ensures store == if outcome.Failed? then old(store)
                       else old(store)[req.domain := Clearance(CloudflareCookies(got.value.cookies, req.url.host), got.value.userAgent)]
    {
      if got.None? {
        return Failed(SolverFailed);
      }
      if forall i | 0 <= i < |got.value.cookies| :: !IsFresh(got.value.cookies[i], rejected) {
        return Failed(NoFreshClearance);
      }
      if got.value.userAgent == "" {
        return Failed(NoUserAgent);
      }
      var kept := KeepCloudflareCookies(got.value.cookies, req.url.host);
      store := store[req.domain := Clearance(kept, got.value.userAgent)];
      return Solved;
    }

    /** The second critical section: the leader leaves, and a failure opens the cooldown. */
    method CloseEnsureFresh(ghost s: State, p: Pid, d: Domain, outcome: Outcome, now: int)
      requires Shows(s) && p in s.procs && s.procs[p].req.domain == d && s.procs[p].pc.Finishing? && s.mutex.None?
      requires s.procs[p].pc.outcome == outcome && s.now == now
      modifies this`inflight, this`cooldown
      ensures Shows(DoSolve(policy, s, p, Unregister))
    {
      inflight := inflight - {d};
      if outcome.Failed? {
        cooldown := cooldown[d := now + policy.cooldown];
      }
    }

    /** The attempt at which a round trip ends. */
    predicate Ends(k: nat, replayable: bool, base: nat -> BaseAnswer, cleared: nat -> bool, rewinds: nat -> bool) {
      !base(k).Challenge? || k > policy.maxSolvesPerRequest || !replayable || !cleared(k) || !rewinds(k)
    }

    /** The loop, for every behaviour of the base transport (`base`), of ensureFresh (`cleared`) and of GetBody
        (`rewinds`), indexed by attempt. */
    method RoundTrip(replayable: bool, base: nat -> BaseAnswer, cleared: nat -> bool, rewinds: nat -> bool)
      returns (reply: Reply, sends: nat, fates: seq<Fate>)
      ensures 1 <= sends <= Max(0, policy.maxSolvesPerRequest) + 1
      ensures Ends(sends, replayable, base, cleared, rewinds)
      ensures forall k | 1 <= k < sends :: !Ends(k, replayable, base, cleared, rewinds)
      ensures reply.TransportError? <==> base(sends).BaseError?
      ensures reply.RewindError? <==>
              base(sends).Challenge? && sends <= policy.maxSolvesPerRequest && replayable && cleared(sends) && !rewinds(sends)
      ensures reply.Response? ==> reply.attempt == sends && |fates| == sends && SettledBut(fates, Returned)
      ensures !reply.Response? ==> AllClosed(fates) && |fates| == if reply.RewindError? then sends else sends - 1
    {
      sends, fates := 0, [];
      while true
        invariant sends <= Max(0, policy.maxSolvesPerRequest) && |fates| == sends && AllClosed(fates)
        invariant forall k | 1 <= k <= sends :: !Ends(k, replayable, base, cleared, rewinds)
        decreases Max(0, policy.maxSolvesPerRequest) + 1 - sends
      {
        sends := sends + 1;
        var answer := base(sends);
        if answer.BaseError? {
          return TransportError, sends, fates;
        }
        var settled := fates;
        assert (settled + [Returned])[..|settled|] == settled;
        if !answer.Challenge? {
          return Response(sends), sends, fates + [Returned];
        }
        if sends > policy.maxSolvesPerRequest || !replayable {
          return Response(sends), sends, fates + [Returned];
        }
        if !cleared(sends) {
          return Response(sends), sends, fates + [Returned];
        }
        fates := fates + [Closed];
        if !rewinds(sends) {
          return RewindError, sends, fates;
        }
      }
    }
  }
}
