/** What the history of a run makes ensureFresh do (internal/cfclearance/transport.go:141-173): its three maps hold
    exactly what the log of saves, deletions, solves and failures says, so that the log alone decides whether a
    challenged request replays, waits, gives up or must start a solve. */
module ClearanceHistory {
  import opened Basics
  import opened CookieRules
  import opened ClearanceProtocol
  import opened ClearanceTheorems
  import opened ClearanceTransport

  // ---------------------------------------------------------------- reading the log

  /** The solve of `d` that has started and not been unregistered. */
  function FlightIn(log: seq<Event>, d: Domain): Option<nat> {
    if log == [] then None
    else
      match log[|log| - 1]
      case Started(e, c, _) => if e == d then Some(c) else FlightIn(log[..|log| - 1], d)
      case Unregistered(e, _, _, _) => if e == d then None else FlightIn(log[..|log| - 1], d)
      case _ => FlightIn(log[..|log| - 1], d)
  }

  /** The clearance of `d` saved last and not deleted since. */
  function StoredIn(log: seq<Event>, d: Domain): Option<Clearance> {
    if log == [] then None
    else
      match log[|log| - 1]
      case Saved(e, _, clearance, _) => if e == d then Some(clearance) else StoredIn(log[..|log| - 1], d)
      case Deleted(e, _) => if e == d then None else StoredIn(log[..|log| - 1], d)
      case _ => StoredIn(log[..|log| - 1], d)
  }

  predicate IsFailure(e: Event, d: Domain) {
    e.Unregistered? && e.domain == d && e.outcome.Failed?
  }

  /** Some failed solve of `d` is less than the cooldown ago. */
  ghost predicate CoolingDown(pol: Policy, log: seq<Event>, d: Domain, now: int) {
    exists i :: 0 <= i < |log| && IsFailure(log[i], d) && now < log[i].at + pol.cooldown
  }

  // ---------------------------------------------------------------- the maps are the log's

  function Lookup<V>(m: map<Domain, V>, d: Domain): Option<V> {
    if d in m then Some(m[d]) else None
  }

  ghost predicate FailureBehind(pol: Policy, log: seq<Event>, d: Domain, until: int) {
    exists i :: 0 <= i < |log| && IsFailure(log[i], d) && until == log[i].at + pol.cooldown
  }

  ghost predicate Remembers(pol: Policy, s: State) {
    && (forall d {:trigger FlightIn(s.log, d)} :: FlightIn(s.log, d) == Lookup(s.inflight, d))
    && (forall d {:trigger StoredIn(s.log, d)} :: StoredIn(s.log, d) == Lookup(s.store, d))
    && (forall d | d in s.cooldown :: FailureBehind(pol, s.log, d, s.cooldown[d]))
  }

  lemma LastRead(log: seq<Event>, e: Event, d: Domain)
    ensures FlightIn(log + [e], d) ==
            match e case Started(x, c, _) => if x == d then Some(c) else FlightIn(log, d)
                    case Unregistered(x, _, _, _) => if x == d then None else FlightIn(log, d)
                    case _ => FlightIn(log, d)
    ensures StoredIn(log + [e], d) ==
            match e case Saved(x, _, clearance, _) => if x == d then Some(clearance) else StoredIn(log, d)
                    case Deleted(x, _) => if x == d then None else StoredIn(log, d)
                    case _ => StoredIn(log, d)
  {
    assert (log + [e])[..|log|] == log;
  }

  lemma FailureStays(pol: Policy, log: seq<Event>, e: Event, d: Domain, until: int)
    requires FailureBehind(pol, log, d, until)
    ensures FailureBehind(pol, log + [e], d, until)
  {
    var i :| 0 <= i < |log| && IsFailure(log[i], d) && until == log[i].at + pol.cooldown;
    assert (log + [e])[i] == log[i];
  }

  /** No step forgets, or remembers what did not happen. */
  lemma RemembersStep(pol: Policy, s: State, t: State, e: Option<Event>)
    requires Recorded(pol, s, t, e) && Remembers(pol, s)
    ensures Remembers(pol, t)
  {
    if e.None? {
      assert t.log == s.log;
    } else {
      forall d
        ensures FlightIn(t.log, d) == Lookup(t.inflight, d)
        ensures StoredIn(t.log, d) == Lookup(t.store, d)
      {
        LastRead(s.log, e.value, d);
        assert FlightIn(s.log, d) == Lookup(s.inflight, d) && StoredIn(s.log, d) == Lookup(s.store, d);
      }
      forall d | d in t.cooldown ensures FailureBehind(pol, t.log, d, t.cooldown[d]) {
        if IsFailure(e.value, d) {
          assert t.log[|s.log|] == e.value;
        } else {
          FailureStays(pol, s.log, e.value, d, s.cooldown[d]);
        }
      }
    }
  }

  lemma {:induction false} RunRemembers(pol: Policy, s: State, steps: seq<Step>)
    requires Inv(pol, s) && Remembers(pol, s) && ValidRun(pol, s, steps)
    ensures Inv(pol, After(pol, s, steps)) && Remembers(pol, After(pol, s, steps))
    decreases |steps|
  {
    if steps != [] {
      var e := StepRecords(pol, s, steps[0]);
      RemembersStep(pol, s, Apply(pol, s, steps[0]), e);
      InvStep(pol, s, steps[0]);
      RunRemembers(pol, Apply(pol, s, steps[0]), steps[1..]);
    }
  }

  lemma Reached(pol: Policy, now: int, steps: seq<Step>)
    requires ValidRun(pol, Init(now), steps)
    ensures Inv(pol, After(pol, Init(now), steps)) && Remembers(pol, After(pol, Init(now), steps))
  {
    InitInv(now, pol);
    RunRemembers(pol, Init(now), steps);
  }

  // ---------------------------------------------------------------- what the log decides

  /** A domain is cooling down exactly as long as one of its failures is recent. */
  lemma CooldownIsRecentFailure(pol: Policy, s: State, d: Domain)
    requires Remembers(pol, s) && CooldownNoted(pol, s)
    ensures (d in s.cooldown && s.now < s.cooldown[d]) <==> CoolingDown(pol, s.log, d, s.now)
  {
    if i :| 0 <= i < |s.log| && IsFailure(s.log[i], d) && s.now < s.log[i].at + pol.cooldown {
      assert s.log[i].domain in s.cooldown;
    }
    if d in s.cooldown && s.now < s.cooldown[d] {
      assert FailureBehind(pol, s.log, d, s.cooldown[d]);
    }
  }

  /** In every run: a request that nobody else's solve can serve is refused exactly while a failure of its domain is
      less than the cooldown ago. Otherwise it starts a solve, then and there. */
  lemma AdmitDecides(pol: Policy, now: int, steps: seq<Step>, p: Pid)
    requires ValidRun(pol, Init(now), steps)
    requires var s := After(pol, Init(now), steps); p in s.procs && s.procs[p].pc.Admitting?
    ensures var s := After(pol, Init(now), steps);
            var d, t := s.procs[p].req.domain, DoGate(s, p, Admit);
            if CoolingDown(pol, s.log, d, s.now) then
              t.log == s.log && t.inflight == s.inflight && t.procs[p].pc.Done?
            else
              && t.log == s.log + [Started(d, |s.calls|, s.now)] && t.inflight == s.inflight[d := |s.calls|]
              && t.procs[p].pc == SlotWait(|s.calls|, s.procs[p].pc.rejected)
  {
    var s := After(pol, Init(now), steps);
    Reached(pol, now, steps);
    CooldownIsRecentFailure(pol, s, s.procs[p].req.domain);
  }

  /** What the first critical section comes to, read off the history. */
  datatype Verdict = Replays | Waits(call: nat) | Refused(forgets: bool) | Starts(forgets: bool)

  /** The stored value is good; else a running solve is shared; else a value just refused is forgotten, and a recent
      failure refuses the solve. */
  function Decision(stored: Option<Clearance>, flight: Option<nat>, cooling: bool, u: Url, rejected: string): Verdict {
    var current := if stored.None? then "" else CurrentClearance(stored.value, u);
    if current != "" && current != rejected then Replays
    else if flight.Some? then Waits(flight.value)
    else if cooling then Refused(rejected != "")
    else Starts(rejected != "")
  }

  /** `t` is where the section leaves request `p` when it decides `v`. */
  ghost predicate CarriedOut(s: State, t: State, p: Pid, rejected: string, v: Verdict)
    requires p in s.procs && p in t.procs
  {
    var d := s.procs[p].req.domain;
    match v
    case Replays => t.procs[p].pc.Replaying? && t.log == s.log
    case Waits(call) => t.procs[p].pc == Waiting(call) && t.log == s.log
    case Refused(forgets) => t.procs[p].pc.Done? && t.log == s.log + (if forgets then [Deleted(d, p)] else [])
    case Starts(forgets) =>
      && t.procs[p].pc == SlotWait(|s.calls|, rejected)
      && t.log == s.log + (if forgets then [Deleted(d, p)] else []) + [Started(d, |s.calls|, s.now)]
  }

  lemma SectionDecides(s: State, p: Pid, rejected: string, cooling: bool)
    requires p in s.procs && s.procs[p].pc == Looking(rejected)
    requires var d := s.procs[p].req.domain; cooling <==> d in s.cooldown && s.now < s.cooldown[d]
    ensures var req := s.procs[p].req;
            CarriedOut(s, OpenSection(s, p), p, rejected,
                       Decision(Lookup(s.store, req.domain), Lookup(s.inflight, req.domain), cooling, req.url, rejected))
  {
    var d, url := s.procs[p].req.domain, s.procs[p].req.url;
    assert CurrentClearance(Clearance([], ""), url) == "";
    var s1 := DoGate(s, p, Look);
    if s1.procs[p].pc.Checking? && d !in s.inflight {
      var s2 := DoGate(s1, p, Check);
      assert s2.procs[p].pc == Admitting(rejected) && s2.procs[p].req.domain == d && s2.cooldown == s.cooldown && s2.calls == s.calls;
      assert OpenSection(s, p) == DoAdmit(s2, p);
    }
  }

  /** In every run, from the look of a challenged request to its first unlock: the history decides. */
  lemma HistoryDecides(pol: Policy, now: int, steps: seq<Step>, p: Pid, rejected: string)
    requires ValidRun(pol, Init(now), steps)
    requires var s := After(pol, Init(now), steps); p in s.procs && s.procs[p].pc == Looking(rejected)
    ensures var s := After(pol, Init(now), steps);
            var d, url := s.procs[p].req.domain, s.procs[p].req.url;
            CarriedOut(s, OpenSection(s, p), p, rejected,
                       Decision(StoredIn(s.log, d), FlightIn(s.log, d), CoolingDown(pol, s.log, d, s.now), url, rejected))
  {
    var s := After(pol, Init(now), steps);
    var d := s.procs[p].req.domain;
    Reached(pol, now, steps);
    CooldownIsRecentFailure(pol, s, d);
    assert StoredIn(s.log, d) == Lookup(s.store, d) && FlightIn(s.log, d) == Lookup(s.inflight, d);
    SectionDecides(s, p, rejected, CoolingDown(pol, s.log, d, s.now));
  }

  // ---------------------------------------------------------------- what an answer leads to

  /** A challenge goes to ensureFresh exactly while attempts are left and the request can be sent again; any other
      answer, and a challenge past that, goes back to the caller. */
  lemma AnswerDecides(pol: Policy, s: State, p: Pid, challenged: bool)
    requires p in s.procs && s.procs[p].pc.Sending?
    ensures var proc, next := s.procs[p], DoClient(pol, s, p, BaseAnswers(challenged)).procs[p];
            if challenged && proc.attempt <= pol.maxSolvesPerRequest && (proc.req.bodyless || proc.req.getBody)
            then next.pc == Locking(proc.pc.sent) && next.responses == proc.responses + [Open]
            else next.pc.Done? && next.responses == proc.responses + [Returned]
  {
    var open := s.procs[p].responses + [Open];
    assert open[..|open| - 1] == s.procs[p].responses;
  }

  /** What a request sends along is the last stored clearance that applies, or nothing when it brings its own. */
  lemma SendingDecides(pol: Policy, now: int, steps: seq<Step>, p: Pid)
    requires ValidRun(pol, Init(now), steps)
    requires var s := After(pol, Init(now), steps); p in s.procs && s.procs[p].pc.Decorating?
    ensures var s := After(pol, Init(now), steps);
            var req := s.procs[p].req;
            var stored := StoredIn(s.log, req.domain);
            DoClient(pol, s, p, Decorate).procs[p].pc ==
              Sending(if stored.None? || req.callerHasOwn then "" else SentClearance(stored.value, req.url, false))
  {
    var s := After(pol, Init(now), steps);
    Reached(pol, now, steps);
    assert StoredIn(s.log, s.procs[p].req.domain) == Lookup(s.store, s.procs[p].req.domain);
  }

  /** The leader and every waiter let go by the closed call replay after a success and give up after a failure. */
  lemma EndDecides(pol: Policy, s: State, p: Pid)
    requires p in s.procs
    ensures s.procs[p].pc.Closing? && SolveEnabled(pol, s, s.procs[p], CloseDone) ==>
              var t := DoSolve(pol, s, p, CloseDone);
              if s.procs[p].pc.outcome.Solved? then t.procs[p].pc.Replaying? else t.procs[p].pc.Done?
    ensures ClientEnabled(s, s.procs[p], Release) ==>
              var t := DoClient(pol, s, p, Release);
              if s.calls[s.procs[p].pc.call].err.Solved? then t.procs[p].pc.Replaying? else t.procs[p].pc.Done?
    ensures ClientEnabled(s, s.procs[p], WaitCancelled) ==> DoClient(pol, s, p, WaitCancelled).procs[p].pc.Done?
    ensures ClientEnabled(s, s.procs[p], Replay) ==>
              var next := DoClient(pol, s, p, Replay).procs[p];
              next.pc.Decorating? && next.attempt == s.procs[p].attempt + 1
  {
  }
}
