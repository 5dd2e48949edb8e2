/** The clearance transport as a state machine: any number of round trips, interleaved step by step
    (internal/cfclearance/transport.go).

    Every access to shared state is a step of its own. The critical section that opens ensureFresh is
    three steps taken while holding the mutex, so that a store Save, which runs outside the mutex, may
    fall between any two of them. */
module ClearanceProtocol {
  import opened Basics
  import opened CookieRules

  type Domain = string
  type Pid = nat

  datatype Policy = Policy(maxSolvesPerRequest: int, cooldown: int, maxConcurrentSolves: int)

  /** Fields left zero take their default: two solves per request, ten minutes (in seconds), one engine. */
  function WithDefaults(p: Policy): Policy {
    Policy(
      if p.maxSolvesPerRequest == 0 then 2 else p.maxSolvesPerRequest,
      if p.cooldown == 0 then 600 else p.cooldown,
      if p.maxConcurrentSolves == 0 then 1 else p.maxConcurrentSolves)
  }

  /** `bodyless` and `getBody` are what replayable looks at; `callerHasOwn` says the caller already sends
      a cf_clearance of its own. */
  datatype Request = Request(domain: Domain, url: Url, callerHasOwn: bool, bodyless: bool, getBody: bool) {
    predicate Replayable() {
      bodyless || getBody
    }
  }

  datatype Failure = SlotTimeout | SolverFailed | NoFreshClearance | NoUserAgent

  /** The error of one solve; Solved stands for nil. */
  datatype Outcome = Solved | Failed(failure: Failure)

  /** `err` starts as nil, like the field it models, so reading it before the leader wrote it reads Solved. */
  datatype Call = Call(domain: Domain, leader: Pid, err: Outcome, closed: bool)

  /** What has become of a response the base transport handed over. */
  datatype Fate = Open | Closed | Returned

  datatype Pc =
    | Decorating
    | Sending(sent: string)
    | Locking(rejected: string)
    | Looking(rejected: string)                                // holds the mutex
    | Checking(rejected: string)                               // holds the mutex
    | Admitting(rejected: string)                              // holds the mutex
    | Waiting(call: nat)
    | SlotWait(call: nat, rejected: string)
    | Solving(call: nat, rejected: string)                     // holds a slot
    | Saving(call: nat, rejected: string, answer: Clearance)   // holds a slot
    | Releasing(call: nat, outcome: Outcome, saved: Option<Clearance>)  // holds a slot
    | Reporting(call: nat, outcome: Outcome, saved: Option<Clearance>)
    | Finishing(call: nat, outcome: Outcome, saved: Option<Clearance>)
    | Closing(call: nat, outcome: Outcome)
    | Replaying
    | Done

  /** One round trip: `attempt` counts from 1, `sends` counts the base round trips and `freshCalls` the
      calls of ensureFresh. */
  datatype Proc = Proc(req: Request, pc: Pc, attempt: nat, sends: nat, freshCalls: nat, responses: seq<Fate>)

  /** The history of a run; nothing in the machine reads it. */
  datatype Event =
    | Started(domain: Domain, call: nat, at: int)
    | Saved(domain: Domain, call: nat, clearance: Clearance, rejected: string)
    | Deleted(domain: Domain, pid: Pid)
    | Unregistered(domain: Domain, call: nat, outcome: Outcome, at: int)
    | Released(pid: Pid, call: nat, outcome: Outcome)

  datatype State = State(
    now: int,
    mutex: Option<Pid>,
    inflight: map<Domain, nat>,
    cooldown: map<Domain, int>,
    store: map<Domain, Clearance>,
    slots: nat,
    calls: seq<Call>,
    procs: map<Pid, Proc>,
    log: seq<Event>)

  /** What the round trip itself does. */
  datatype ClientStep =
    | Decorate
    | BaseFails
    | BaseAnswers(challenged: bool)
    | Release
    | WaitCancelled
    | Replay
    | RewindFails

  /** The critical section that opens ensureFresh. */
  datatype GateStep = Acquire | Look | Check | Admit

  /** What the request that registered the solve does until it has told everybody. */
  datatype SolveStep =
    | TakeSlot
    | SlotTimesOut
    | SolverAnswers(got: Option<Clearance>)
    | Save
    | ReleaseSlot
    | Report
    | Unregister
    | CloseDone

  datatype Step =
    | Tick(elapsed: nat)
    | Arrive(p: Pid, req: Request)
    | Client(p: Pid, client: ClientStep)
    | Gate(p: Pid, gate: GateStep)
    | Solve(p: Pid, solve: SolveStep)

  function Init(now: int): State {
    State(now, None, map[], map[], map[], 0, [], map[], [])
  }

  // ---------------------------------------------------------------- the transition function

  predicate ClientEnabled(s: State, proc: Proc, step: ClientStep) {
    match step
    case Decorate => proc.pc.Decorating?
    case BaseFails => proc.pc.Sending?
    case BaseAnswers(_) => proc.pc.Sending?
    case Release => proc.pc.Waiting? && proc.pc.call < |s.calls| && s.calls[proc.pc.call].closed
    case WaitCancelled => proc.pc.Waiting?
    case Replay => proc.pc.Replaying?
    case RewindFails => proc.pc.Replaying? && proc.req.getBody
  }

  predicate GateEnabled(s: State, proc: Proc, step: GateStep) {
    match step
    case Acquire => proc.pc.Locking? && s.mutex.None?
    case Look => proc.pc.Looking?
    case Check => proc.pc.Checking?
    case Admit => proc.pc.Admitting?
  }

  predicate SolveEnabled(pol: Policy, s: State, proc: Proc, step: SolveStep) {
    match step
    case TakeSlot => proc.pc.SlotWait? && s.slots < pol.maxConcurrentSolves
    case SlotTimesOut => proc.pc.SlotWait?
    case SolverAnswers(_) => proc.pc.Solving?
    case Save => proc.pc.Saving?
    case ReleaseSlot => proc.pc.Releasing? && 0 < s.slots
    case Report => proc.pc.Reporting? && proc.pc.call < |s.calls|
    case Unregister => proc.pc.Finishing? && s.mutex.None?
    case CloseDone => proc.pc.Closing? && proc.pc.call < |s.calls|
  }

  predicate Enabled(pol: Policy, s: State, step: Step) {
    match step
    case Tick(_) => true
    case Arrive(p, _) => p !in s.procs
    case Client(p, client) => p in s.procs && ClientEnabled(s, s.procs[p], client)
    case Gate(p, gate) => p in s.procs && GateEnabled(s, s.procs[p], gate)
    case Solve(p, solve) => p in s.procs && SolveEnabled(pol, s, s.procs[p], solve)
  }

  function Goto(s: State, p: Pid, pc: Pc): State
    requires p in s.procs
  {
    s.(procs := s.procs[p := s.procs[p].(pc := pc)])
  }

  /** Settles the response in hand. */
  function Settle(responses: seq<Fate>, fate: Fate): seq<Fate> {
    if responses == [] then [] else responses[..|responses| - 1] + [fate]
  }

  /** The round trip ends with the response in hand. */
  function GiveUp(s: State, p: Pid): State
    requires p in s.procs
  {
    s.(procs := s.procs[p := s.procs[p].(pc := Done, responses := Settle(s.procs[p].responses, Returned))])
  }

  /** ensureFresh came back: nil replays, an error ends the round trip with the challenge. */
  function Resume(s: State, p: Pid, outcome: Outcome): State
    requires p in s.procs
  {
    if outcome.Solved? then Goto(s, p, Replaying) else GiveUp(s, p)
  }

  function StoredFor(s: State, d: Domain): Clearance {
    if d in s.store then s.store[d] else Clearance([], "")
  }

  function Judge(got: Clearance, rejected: string): Outcome {
    if !HasFreshClearance(got.cookies, rejected) then Failed(NoFreshClearance)
    else if got.userAgent == "" then Failed(NoUserAgent)
    else Solved
  }

  function Answered(pol: Policy, s: State, p: Pid, challenged: bool): State
    requires p in s.procs && s.procs[p].pc.Sending?
  {
    var proc := s.procs[p].(responses := s.procs[p].responses + [Open]);
    var s1 := s.(procs := s.procs[p := proc]);
    if !challenged || proc.attempt > pol.maxSolvesPerRequest || !proc.req.Replayable() then GiveUp(s1, p)
    else s.(procs := s.procs[p := proc.(pc := Locking(proc.pc.sent), freshCalls := proc.freshCalls + 1)])
  }

  function DoClient(pol: Policy, s: State, p: Pid, step: ClientStep): State
    requires p in s.procs && ClientEnabled(s, s.procs[p], step)
  {
    var proc := s.procs[p];
    match step
    case Decorate =>
      var sent := SentClearance(StoredFor(s, proc.req.domain), proc.req.url, proc.req.callerHasOwn);
      s.(procs := s.procs[p := proc.(pc := Sending(sent), sends := proc.sends + 1)])
    case BaseFails => Goto(s, p, Done)
    case BaseAnswers(challenged) => Answered(pol, s, p, challenged)
    case Release =>
      var err := s.calls[proc.pc.call].err;
      Resume(s.(log := s.log + [Released(p, proc.pc.call, err)]), p, err)
    case WaitCancelled => GiveUp(s, p)
    case Replay =>
      s.(procs := s.procs[p := proc.(pc := Decorating, attempt := proc.attempt + 1,
                                     responses := Settle(proc.responses, Closed))])
    case RewindFails =>
      s.(procs := s.procs[p := proc.(pc := Done, responses := Settle(proc.responses, Closed))])
  }

  /** Registers the solve, unless the domain is cooling down. */
  function DoAdmit(s: State, p: Pid): State
    requires p in s.procs && s.procs[p].pc.Admitting?
  {
    var d, rejected := s.procs[p].req.domain, s.procs[p].pc.rejected;
    if d in s.cooldown && s.now < s.cooldown[d] then GiveUp(s.(mutex := None), p)
    else
      var c := |s.calls|;
      Goto(s.(mutex := None, inflight := s.inflight[d := c], calls := s.calls + [Call(d, p, Solved, false)],
              log := s.log + [Started(d, c, s.now)]),
           p, SlotWait(c, rejected))
  }

  function DoGate(s: State, p: Pid, step: GateStep): State
    requires p in s.procs && GateEnabled(s, s.procs[p], step)
  {
    var req, rejected := s.procs[p].req, s.procs[p].pc.rejected;
    var d := req.domain;
    match step
    case Acquire => Goto(s.(mutex := Some(p)), p, Looking(rejected))
    case Look =>
      var current := CurrentClearance(StoredFor(s, d), req.url);
      if current != "" && current != rejected then Goto(s.(mutex := None), p, Replaying)
      else Goto(s, p, Checking(rejected))
    case Check =>
      if d in s.inflight then Goto(s.(mutex := None), p, Waiting(s.inflight[d]))
      else if rejected != "" then
        Goto(s.(store := s.store - {d}, log := s.log + [Deleted(d, p)]), p, Admitting(rejected))
      else Goto(s, p, Admitting(rejected))
    case Admit => DoAdmit(s, p)
  }

  /** What runSolver goes on to do with the solver's answer; None is a solver error. */
  function AfterAnswer(proc: Proc, got: Option<Clearance>): Pc
    requires proc.pc.Solving?
  {
    match got
    case None => Releasing(proc.pc.call, Failed(SolverFailed), None)
    case Some(answer) =>
      var verdict := Judge(answer, proc.pc.rejected);
      if verdict.Failed? then Releasing(proc.pc.call, verdict, None)
      else
        Saving(proc.pc.call, proc.pc.rejected,
               Clearance(CloudflareCookies(answer.cookies, proc.req.url.host), answer.userAgent))
  }

  function DoSolve(pol: Policy, s: State, p: Pid, step: SolveStep): State
    requires p in s.procs && SolveEnabled(pol, s, s.procs[p], step)
  {
    var d, pc := s.procs[p].req.domain, s.procs[p].pc;
    match step
    case TakeSlot => Goto(s.(slots := s.slots + 1), p, Solving(pc.call, pc.rejected))
    case SlotTimesOut => Goto(s, p, Reporting(pc.call, Failed(SlotTimeout), None))
    case SolverAnswers(got) => Goto(s, p, AfterAnswer(s.procs[p], got))
    case Save =>
      Goto(s.(store := s.store[d := pc.answer], log := s.log + [Saved(d, pc.call, pc.answer, pc.rejected)]),
           p, Releasing(pc.call, Solved, Some(pc.answer)))
    case ReleaseSlot => Goto(s.(slots := s.slots - 1), p, Reporting(pc.call, pc.outcome, pc.saved))
    case Report =>
      Goto(s.(calls := s.calls[pc.call := s.calls[pc.call].(err := pc.outcome)]),
           p, Finishing(pc.call, pc.outcome, pc.saved))
    case Unregister =>
      Goto(s.(inflight := s.inflight - {d},
              cooldown := if pc.outcome.Failed? then s.cooldown[d := s.now + pol.cooldown] else s.cooldown,
              log := s.log + [Unregistered(d, pc.call, pc.outcome, s.now)]),
           p, Closing(pc.call, pc.outcome))
    case CloseDone =>
      Resume(s.(calls := s.calls[pc.call := s.calls[pc.call].(closed := true)]), p, pc.outcome)
  }

  function Apply(pol: Policy, s: State, step: Step): State
    requires Enabled(pol, s, step)
  {
    match step
    case Tick(elapsed) => s.(now := s.now + elapsed)
    case Arrive(p, req) => s.(procs := s.procs[p := Proc(req, Decorating, 1, 0, 0, [])])
    case Client(p, client) => DoClient(pol, s, p, client)
    case Gate(p, gate) => DoGate(s, p, gate)
    case Solve(p, solve) => DoSolve(pol, s, p, solve)
  }

  // ---------------------------------------------------------------- runs

  ghost predicate ValidRun(pol: Policy, s: State, steps: seq<Step>)
    decreases |steps|
  {
    steps == [] || (Enabled(pol, s, steps[0]) && ValidRun(pol, Apply(pol, s, steps[0]), steps[1..]))
  }

  ghost function After(pol: Policy, s: State, steps: seq<Step>): State
    requires ValidRun(pol, s, steps)
    decreases |steps|
  {
    if steps == [] then s else After(pol, Apply(pol, s, steps[0]), steps[1..])
  }

  // ---------------------------------------------------------------- invariants of the shared state

  predicate Leads(pc: Pc) {
    pc.SlotWait? || pc.Solving? || pc.Saving? || pc.Releasing? || pc.Reporting? || pc.Finishing?
  }

  predicate HoldsSlot(pc: Pc) {
    pc.Solving? || pc.Saving? || pc.Releasing?
  }

  predicate HoldsMutex(pc: Pc) {
    pc.Looking? || pc.Checking? || pc.Admitting?
  }

  ghost predicate LeaderRegistered(s: State, p: Pid)
    requires p in s.procs && Leads(s.procs[p].pc)
  {
    var d, c := s.procs[p].req.domain, s.procs[p].pc.call;
    && d in s.inflight && s.inflight[d] == c
    && c < |s.calls| && s.calls[c] == Call(d, p, s.calls[c].err, false)
  }

  ghost predicate EntryLed(s: State, d: Domain)
    requires d in s.inflight
  {
    var c := s.inflight[d];
    && c < |s.calls|
    && var p := s.calls[c].leader;
       p in s.procs && s.procs[p].req.domain == d && Leads(s.procs[p].pc) && s.procs[p].pc.call == c
  }

  /** The in-flight entries are exactly the leaders: one to one, through the call they share. */
  ghost predicate SingleFlight(s: State) {
    && (forall p | p in s.procs && Leads(s.procs[p].pc) :: LeaderRegistered(s, p))
    && (forall d | d in s.inflight :: EntryLed(s, d))
  }

  /** At most one request of a domain is between registering and unregistering a solve. */
  ghost predicate OneLeaderPerDomain(s: State) {
    forall p, q | p in s.procs && q in s.procs && Leads(s.procs[p].pc) && Leads(s.procs[q].pc)
                  && s.procs[p].req.domain == s.procs[q].req.domain :: p == q
  }

  ghost predicate MutexHeld(s: State) {
    && (forall p | p in s.procs && HoldsMutex(s.procs[p].pc) :: s.mutex == Some(p))
    && (s.mutex.Some? ==> s.mutex.value in s.procs && HoldsMutex(s.procs[s.mutex.value].pc))
    && (forall p | p in s.procs && s.procs[p].pc.Admitting? :: s.procs[p].req.domain !in s.inflight)
  }

  ghost function SlotHolders(s: State): set<Pid> {
    set p | p in s.procs && HoldsSlot(s.procs[p].pc)
  }

  ghost predicate SlotsCounted(pol: Policy, s: State) {
    s.slots == |SlotHolders(s)| && s.slots <= Max(0, pol.maxConcurrentSolves)
  }

  /** A call is closed, or its leader is still on the way to closing it. */
  ghost predicate CallLed(s: State, c: nat)
    requires c < |s.calls|
  {
    var p := s.calls[c].leader;
    p in s.procs && (Leads(s.procs[p].pc) || s.procs[p].pc.Closing?) && s.procs[p].pc.call == c
  }

  ghost predicate CallsAlive(s: State) {
    && (forall c | 0 <= c < |s.calls| :: s.calls[c].closed || CallLed(s, c))
    && (forall p | p in s.procs && s.procs[p].pc.Waiting? ::
          s.procs[p].pc.call < |s.calls| && s.calls[s.procs[p].pc.call].domain == s.procs[p].req.domain)
    && (forall p | p in s.procs && s.procs[p].pc.Closing? ::
          s.procs[p].pc.call < |s.calls| && s.calls[s.procs[p].pc.call].leader == p)
  }

  /** What a solve saved stays in the store, untouched, until its leader unregisters. */
  ghost predicate SavedIsStored(s: State) {
    && (forall p | p in s.procs && s.procs[p].pc.Saving? ::
          s.procs[p].pc.answer.userAgent != "" && HasFreshClearance(s.procs[p].pc.answer.cookies, s.procs[p].pc.rejected))
    && (forall p | p in s.procs && (s.procs[p].pc.Releasing? || s.procs[p].pc.Reporting? || s.procs[p].pc.Finishing?) ::
          && (s.procs[p].pc.saved.Some? <==> s.procs[p].pc.outcome.Solved?)
          && (s.procs[p].pc.saved.Some? ==>
                s.procs[p].req.domain in s.store && s.store[s.procs[p].req.domain] == s.procs[p].pc.saved.value))
  }

  ghost predicate SharedInv(pol: Policy, s: State) {
    SingleFlight(s) && MutexHeld(s) && SlotsCounted(pol, s) && CallsAlive(s) && SavedIsStored(s)
  }

  // ---------------------------------------------------------------- the invariants hold over every step

  ghost predicate Moves(s: State, t: State, p: Pid) {
    p in t.procs && t.procs == s.procs[p := t.procs[p]] && t.inflight == s.inflight && |t.calls| == |s.calls|
  }

  predicate Outside(pc: Pc) {
    !Leads(pc) && !pc.Closing? && !pc.Saving?
  }

  /** A step of a request that leads no solve, before or after it. */
  ghost predicate OutsideMove(s: State, t: State, p: Pid) {
    && Moves(s, t, p) && t.calls == s.calls
    && (p in s.procs ==> Outside(s.procs[p].pc)) && Outside(t.procs[p].pc)
    && (t.procs[p].pc.Waiting? ==>
          t.procs[p].pc.call < |s.calls| && s.calls[t.procs[p].pc.call].domain == t.procs[p].req.domain)
    && (forall d | d in s.inflight && d in s.store :: d in t.store && t.store[d] == s.store[d])
  }

  /** A step of a leader that stays one: it may write its own call's error and its own domain's store entry. */
  ghost predicate LeaderMove(s: State, t: State, p: Pid) {
    && Moves(s, t, p) && p in s.procs && Leads(s.procs[p].pc) && Leads(t.procs[p].pc)
    && t.procs[p].pc.call == s.procs[p].pc.call && t.procs[p].req == s.procs[p].req
    && (forall c | 0 <= c < |s.calls| :: t.calls[c] == s.calls[c].(err := t.calls[c].err))
    && (forall d | d in s.store && d != s.procs[p].req.domain :: d in t.store && t.store[d] == s.store[d])
  }

  lemma OutsideKeepsSingleFlight(s: State, t: State, p: Pid)
    requires SingleFlight(s) && OutsideMove(s, t, p)
    ensures SingleFlight(t)
  {
  }

  lemma OutsideKeepsCalls(s: State, t: State, p: Pid)
    requires CallsAlive(s) && OutsideMove(s, t, p)
    ensures CallsAlive(t)
  {
  }

  lemma OutsideKeepsSaved(s: State, t: State, p: Pid)
    requires SingleFlight(s) && SavedIsStored(s) && OutsideMove(s, t, p)
    ensures SavedIsStored(t)
  {
  }

  lemma LeaderKeepsSingleFlight(s: State, t: State, p: Pid)
    requires SingleFlight(s) && LeaderMove(s, t, p)
    ensures SingleFlight(t)
  {
  }

  lemma LeaderKeepsCalls(s: State, t: State, p: Pid)
    requires CallsAlive(s) && LeaderMove(s, t, p)
    ensures CallsAlive(t)
  {
  }

  ghost predicate SavedAt(s: State, p: Pid)
    requires p in s.procs
  {
    var pc, d := s.procs[p].pc, s.procs[p].req.domain;
    && (pc.Saving? ==> pc.answer.userAgent != "" && HasFreshClearance(pc.answer.cookies, pc.rejected))
    && (pc.Releasing? || pc.Reporting? || pc.Finishing? ==>
          && (pc.saved.Some? <==> pc.outcome.Solved?)
          && (pc.saved.Some? ==> d in s.store && s.store[d] == pc.saved.value))
  }

  lemma LeaderKeepsSaved(s: State, t: State, p: Pid)
    requires SingleFlight(s) && SavedIsStored(s) && LeaderMove(s, t, p) && SavedAt(t, p)
    ensures SavedIsStored(t)
  {
    forall q | q in t.procs && q != p && Leads(t.procs[q].pc)
      ensures SavedAt(t, q)
    {
      assert SavedAt(s, q);
      assert LeaderRegistered(s, p) && LeaderRegistered(s, q);
    }
  }

  /** The slot count follows the set of holders. */
  lemma SlotsFollow(s: State, t: State, p: Pid)
    requires s.slots == |SlotHolders(s)|
    requires p in t.procs && t.procs == s.procs[p := t.procs[p]]
    ensures |SlotHolders(t)| == s.slots
            + (if HoldsSlot(t.procs[p].pc) then 1 else 0)
            - (if p in s.procs && HoldsSlot(s.procs[p].pc) then 1 else 0)
    ensures p in s.procs && HoldsSlot(s.procs[p].pc) ==> 0 < s.slots
  {
    var rest := SlotHolders(s) - {p};
    assert SlotHolders(t) == if HoldsSlot(t.procs[p].pc) then rest + {p} else rest;
    assert SlotHolders(s) == if p in s.procs && HoldsSlot(s.procs[p].pc) then rest + {p} else rest;
  }

  /** The mutex follows the program counters. */
  ghost predicate MutexFollows(s: State, t: State, p: Pid)
    requires p in t.procs
  {
    var held := p in s.procs && HoldsMutex(s.procs[p].pc);
    && t.procs == s.procs[p := t.procs[p]]
    && t.mutex == (if HoldsMutex(t.procs[p].pc) == held then s.mutex else if held then None else Some(p))
    && (HoldsMutex(t.procs[p].pc) && !held ==> s.mutex.None?)
    && (t.inflight.Keys <= s.inflight.Keys || held)
    && (t.procs[p].pc.Admitting? ==> t.procs[p].req.domain !in t.inflight)
  }

  lemma MutexKeeps(s: State, t: State, p: Pid)
    requires MutexHeld(s) && p in t.procs && MutexFollows(s, t, p)
    ensures MutexHeld(t)
  {
  }

  lemma OutsideKeeps(pol: Policy, s: State, t: State, p: Pid)
    requires SharedInv(pol, s) && OutsideMove(s, t, p) && MutexFollows(s, t, p) && t.slots == s.slots
    ensures SharedInv(pol, t)
  {
    OutsideKeepsSingleFlight(s, t, p);
    OutsideKeepsCalls(s, t, p);
    OutsideKeepsSaved(s, t, p);
    MutexKeeps(s, t, p);
    SlotsFollow(s, t, p);
  }

  lemma LeaderKeeps(pol: Policy, s: State, t: State, p: Pid)
    requires SharedInv(pol, s) && LeaderMove(s, t, p) && MutexFollows(s, t, p) && SavedAt(t, p)
    requires t.slots == s.slots + (if HoldsSlot(t.procs[p].pc) then 1 else 0) - (if HoldsSlot(s.procs[p].pc) then 1 else 0)
    requires t.slots <= Max(s.slots, pol.maxConcurrentSolves)
    ensures SharedInv(pol, t)
  {
    LeaderKeepsSingleFlight(s, t, p);
    LeaderKeepsCalls(s, t, p);
    LeaderKeepsSaved(s, t, p);
    MutexKeeps(s, t, p);
    SlotsFollow(s, t, p);
  }

  /** What every step does, by the role of the request that takes it. */
  lemma ClientShape(pol: Policy, s: State, p: Pid, step: ClientStep)
    requires p in s.procs && ClientEnabled(s, s.procs[p], step)
    ensures var t := DoClient(pol, s, p, step); OutsideMove(s, t, p) && MutexFollows(s, t, p) && t.slots == s.slots
  {
    match step {
      case Decorate =>
      case BaseFails =>
      case BaseAnswers(_) =>
      case Release =>
      case WaitCancelled =>
      case Replay =>
      case RewindFails =>
    }
  }

  lemma GateShape(s: State, p: Pid, step: GateStep)
    requires p in s.procs && GateEnabled(s, s.procs[p], step) && !step.Admit?
    requires var d := s.procs[p].req.domain; d in s.inflight ==> s.inflight[d] < |s.calls| && s.calls[s.inflight[d]].domain == d
    ensures var t := DoGate(s, p, step); OutsideMove(s, t, p) && MutexFollows(s, t, p) && t.slots == s.slots
  {
  }

  lemma LeaderShape(pol: Policy, s: State, p: Pid, step: SolveStep)
    requires p in s.procs && SolveEnabled(pol, s, s.procs[p], step) && SavedAt(s, p)
    requires !step.Unregister? && !step.CloseDone?
    ensures var t := DoSolve(pol, s, p, step);
            && LeaderMove(s, t, p) && MutexFollows(s, t, p) && SavedAt(t, p)
            && t.slots == s.slots + (if HoldsSlot(t.procs[p].pc) then 1 else 0) - (if HoldsSlot(s.procs[p].pc) then 1 else 0)
            && t.slots <= Max(s.slots, pol.maxConcurrentSolves)
  {
    if step.SolverAnswers? && step.got.Some? {
      KeepingPreservesFreshness(step.got.value.cookies, s.procs[p].req.url.host, s.procs[p].pc.rejected);
    }
  }

  /** A solve is registered: a new call, led by `p`, for a domain that had none in flight. */
  ghost predicate Registers(s: State, t: State, p: Pid) {
    && p in s.procs && s.procs[p].pc.Admitting? && p in t.procs && t.procs == s.procs[p := t.procs[p]]
    && t.procs[p].pc.SlotWait? && t.procs[p].pc.call == |s.calls| && t.procs[p].req == s.procs[p].req
    && t.inflight == s.inflight[s.procs[p].req.domain := |s.calls|]
    && t.calls == s.calls + [Call(s.procs[p].req.domain, p, Solved, false)]
    && t.store == s.store
  }

  lemma RegisterKeepsFlight(s: State, t: State, p: Pid)
    requires Registers(s, t, p) && SingleFlight(s) && s.procs[p].req.domain !in s.inflight
    ensures SingleFlight(t)
    ensures SavedIsStored(s) ==> SavedIsStored(t)
  {
  }

  lemma RegisterKeepsCalls(s: State, t: State, p: Pid)
    requires Registers(s, t, p) && CallsAlive(s)
    ensures CallsAlive(t)
  {
    forall c | 0 <= c < |t.calls| ensures t.calls[c].closed || CallLed(t, c) {
      if c < |s.calls| { assert s.calls[c].closed || CallLed(s, c); }
    }
  }

  /** The leader stops leading: only its own entry goes. */
  ghost predicate Unregisters(s: State, t: State, p: Pid) {
    && p in s.procs && s.procs[p].pc.Finishing? && p in t.procs && t.procs == s.procs[p := t.procs[p]]
    && t.procs[p].pc.Closing? && t.procs[p].pc.call == s.procs[p].pc.call
    && t.procs[p].req == s.procs[p].req
    && t.inflight == s.inflight - {s.procs[p].req.domain}
    && t.calls == s.calls && t.store == s.store
  }

  lemma UnregisterKeepsFlight(s: State, t: State, p: Pid)
    requires Unregisters(s, t, p) && SingleFlight(s)
    ensures SingleFlight(t)
    ensures SavedIsStored(s) ==> SavedIsStored(t)
  {
    assert LeaderRegistered(s, p);
    forall q | q in t.procs && Leads(t.procs[q].pc) ensures LeaderRegistered(t, q) {
      assert LeaderRegistered(s, q);
    }
  }

  lemma UnregisterKeepsCalls(s: State, t: State, p: Pid)
    requires Unregisters(s, t, p) && CallsAlive(s)
    requires LeaderRegistered(s, p)
    ensures CallsAlive(t)
  {
    forall c | 0 <= c < |t.calls| ensures t.calls[c].closed || CallLed(t, c) {
      assert s.calls[c].closed || CallLed(s, c);
    }
  }

  /** The former leader closes its call and goes on as an ordinary round trip. */
  ghost predicate Closes(s: State, t: State, p: Pid) {
    && p in s.procs && s.procs[p].pc.Closing? && p in t.procs && t.procs == s.procs[p := t.procs[p]]
    && (t.procs[p].pc.Replaying? || t.procs[p].pc.Done?)
    && s.procs[p].pc.call < |s.calls|
    && t.calls == s.calls[s.procs[p].pc.call := s.calls[s.procs[p].pc.call].(closed := true)]
    && t.inflight == s.inflight && t.store == s.store
  }

  lemma CloseKeeps(s: State, t: State, p: Pid)
    requires Closes(s, t, p) && CallsAlive(s)
    ensures SingleFlight(s) ==> SingleFlight(t)
    ensures CallsAlive(t)
    ensures SavedIsStored(s) ==> SavedIsStored(t)
  {
    forall c | 0 <= c < |t.calls| ensures t.calls[c].closed || CallLed(t, c) {
      assert s.calls[c].closed || CallLed(s, c);
    }
  }

  lemma SolveBoundaryShape(pol: Policy, s: State, p: Pid, step: SolveStep)
    requires p in s.procs && SolveEnabled(pol, s, s.procs[p], step) && (step.Unregister? || step.CloseDone?)
    ensures var t := DoSolve(pol, s, p, step);
            && MutexFollows(s, t, p) && t.slots == s.slots
            && (step.Unregister? ==> Unregisters(s, t, p))
            && (step.CloseDone? ==> Closes(s, t, p))
  {
  }

  lemma AdmitShape(s: State, p: Pid)
    requires p in s.procs && s.procs[p].pc.Admitting?
    ensures var t := DoAdmit(s, p);
            && MutexFollows(s, t, p) && t.slots == s.slots && (OutsideMove(s, t, p) || Registers(s, t, p))
  {
  }

  lemma SharedStep(pol: Policy, s: State, step: Step)
    requires SharedInv(pol, s) && Enabled(pol, s, step)
    ensures SharedInv(pol, Apply(pol, s, step))
  {
    var t := Apply(pol, s, step);
    match step
    case Tick(_) =>
      assert SlotHolders(t) == SlotHolders(s);
    case Arrive(p, _) =>
      OutsideKeeps(pol, s, t, p);
    case Client(p, client) =>
      ClientShape(pol, s, p, client);
      OutsideKeeps(pol, s, t, p);
    case Gate(p, gate) =>
      GateKeeps(pol, s, p, gate);
    case Solve(p, solve) =>
      SolveKeeps(pol, s, p, solve);
  }

  lemma GateKeeps(pol: Policy, s: State, p: Pid, step: GateStep)
    requires SharedInv(pol, s) && p in s.procs && GateEnabled(s, s.procs[p], step)
    ensures SharedInv(pol, DoGate(s, p, step))
  {
    var t, d := DoGate(s, p, step), s.procs[p].req.domain;
    if step.Admit? {
      AdmitShape(s, p);
      if OutsideMove(s, t, p) {
        OutsideKeeps(pol, s, t, p);
      } else {
        RegisterKeepsFlight(s, t, p);
        RegisterKeepsCalls(s, t, p);
        MutexKeeps(s, t, p);
        SlotsFollow(s, t, p);
      }
    } else {
      assert d in s.inflight ==> EntryLed(s, d) && LeaderRegistered(s, s.calls[s.inflight[d]].leader);
      GateShape(s, p, step);
      OutsideKeeps(pol, s, t, p);
    }
  }

  lemma UnregisterKeeps(pol: Policy, s: State, p: Pid)
    requires SharedInv(pol, s) && p in s.procs && SolveEnabled(pol, s, s.procs[p], Unregister)
    ensures SharedInv(pol, DoSolve(pol, s, p, Unregister))
  {
    var t := DoSolve(pol, s, p, Unregister);
    SolveBoundaryShape(pol, s, p, Unregister);
    assert LeaderRegistered(s, p);
    UnregisterKeepsFlight(s, t, p);
    UnregisterKeepsCalls(s, t, p);
    MutexKeeps(s, t, p);
    SlotsFollow(s, t, p);
  }

  lemma CloseDoneKeeps(pol: Policy, s: State, p: Pid)
    requires SharedInv(pol, s) && p in s.procs && SolveEnabled(pol, s, s.procs[p], CloseDone)
    ensures SharedInv(pol, DoSolve(pol, s, p, CloseDone))
  {
    var t := DoSolve(pol, s, p, CloseDone);
    SolveBoundaryShape(pol, s, p, CloseDone);
    CloseKeeps(s, t, p);
    MutexKeeps(s, t, p);
    SlotsFollow(s, t, p);
  }

  lemma SolveKeeps(pol: Policy, s: State, p: Pid, step: SolveStep)
    requires SharedInv(pol, s) && p in s.procs && SolveEnabled(pol, s, s.procs[p], step)
    ensures SharedInv(pol, DoSolve(pol, s, p, step))
  {
    if step.Unregister? {
      UnregisterKeeps(pol, s, p);
    } else if step.CloseDone? {
      CloseDoneKeeps(pol, s, p);
    } else {
      assert SavedAt(s, p);
      LeaderShape(pol, s, p, step);
      LeaderKeeps(pol, s, DoSolve(pol, s, p, step), p);
    }
  }

  // ---------------------------------------------------------------- the history

  /** Every step records at most one event, and the shared maps change with it. */
  ghost predicate Recorded(pol: Policy, s: State, t: State, e: Option<Event>) {
    && s.now <= t.now
    && t.log == s.log + (if e.Some? then [e.value] else [])
    && match e
       case None => t.inflight == s.inflight && t.cooldown == s.cooldown && t.store == s.store
       case Some(Started(d, c, at)) =>
         && at == s.now && c == |s.calls| && d !in s.inflight && (d in s.cooldown ==> s.cooldown[d] <= s.now)
         && t.inflight == s.inflight[d := c] && t.cooldown == s.cooldown && t.store == s.store
       case Some(Saved(d, c, clearance, rejected)) =>
         && d in s.inflight && s.inflight[d] == c
         && clearance.userAgent != "" && HasFreshClearance(clearance.cookies, rejected)
         && t.inflight == s.inflight && t.cooldown == s.cooldown && t.store == s.store[d := clearance]
       case Some(Deleted(d, _)) =>
         && d !in s.inflight
         && t.inflight == s.inflight && t.cooldown == s.cooldown && t.store == s.store - {d}
       case Some(Unregistered(d, c, outcome, at)) =>
         && at == s.now && d in s.inflight && s.inflight[d] == c
         && t.inflight == s.inflight - {d} && t.store == s.store
         && t.cooldown == if outcome.Failed? then s.cooldown[d := s.now + pol.cooldown] else s.cooldown
       case Some(Released(_, c, outcome)) =>
         && c < |s.calls| && s.calls[c].closed && outcome == s.calls[c].err
         && t.inflight == s.inflight && t.cooldown == s.cooldown && t.store == s.store
  }

  lemma ClientRecords(pol: Policy, s: State, p: Pid, step: ClientStep) returns (e: Option<Event>)
    requires p in s.procs && ClientEnabled(s, s.procs[p], step)
    ensures Recorded(pol, s, DoClient(pol, s, p, step), e)
  {
    e := if step.Release? then Some(Released(p, s.procs[p].pc.call, s.calls[s.procs[p].pc.call].err)) else None;
  }

  lemma GateRecords(pol: Policy, s: State, p: Pid, step: GateStep) returns (e: Option<Event>)
    requires p in s.procs && GateEnabled(s, s.procs[p], step)
    requires s.procs[p].pc.Admitting? ==> s.procs[p].req.domain !in s.inflight
    ensures Recorded(pol, s, DoGate(s, p, step), e)
  {
    var d := s.procs[p].req.domain;
    e := None;
    if step.Admit? {
      if !(d in s.cooldown && s.now < s.cooldown[d]) { e := Some(Started(d, |s.calls|, s.now)); }
    } else if step.Check? && d !in s.inflight && s.procs[p].pc.rejected != "" {
      e := Some(Deleted(d, p));
    }
  }

  lemma SolveRecords(pol: Policy, s: State, p: Pid, step: SolveStep) returns (e: Option<Event>)
    requires p in s.procs && SolveEnabled(pol, s, s.procs[p], step) && SavedAt(s, p)
    requires Leads(s.procs[p].pc) ==> LeaderRegistered(s, p)
    ensures Recorded(pol, s, DoSolve(pol, s, p, step), e)
  {
    var d, pc := s.procs[p].req.domain, s.procs[p].pc;
    e := if step.Save? then Some(Saved(d, pc.call, pc.answer, pc.rejected))
         else if step.Unregister? then Some(Unregistered(d, pc.call, pc.outcome, s.now))
         else None;
  }

  lemma StepRecords(pol: Policy, s: State, step: Step) returns (e: Option<Event>)
    requires SharedInv(pol, s) && Enabled(pol, s, step)
    ensures Recorded(pol, s, Apply(pol, s, step), e)
  {
    match step
    case Tick(_) => e := None;
    case Arrive(p, _) => e := None;
    case Client(p, client) => e := ClientRecords(pol, s, p, client);
    case Gate(p, gate) => e := GateRecords(pol, s, p, gate);
    case Solve(p, solve) =>
      assert SavedAt(s, p);
      e := SolveRecords(pol, s, p, solve);
  }

  /** After a failed solve of a domain, the next one starts no sooner than the cooldown allows. */
  ghost predicate CooldownKept(pol: Policy, log: seq<Event>) {
    forall i, j | 0 <= i < j < |log| && log[i].Unregistered? && log[i].outcome.Failed? && log[j].Started?
                  && log[i].domain == log[j].domain ::
      log[i].at + pol.cooldown <= log[j].at
  }

  ghost predicate CooldownNoted(pol: Policy, s: State) {
    forall i | 0 <= i < |s.log| && s.log[i].Unregistered? && s.log[i].outcome.Failed? ::
      && s.log[i].at <= s.now
      && s.log[i].domain in s.cooldown && s.log[i].at + pol.cooldown <= s.cooldown[s.log[i].domain]
  }

  lemma CooldownStep(pol: Policy, s: State, t: State, e: Option<Event>)
    requires Recorded(pol, s, t, e) && CooldownKept(pol, s.log) && CooldownNoted(pol, s)
    ensures CooldownKept(pol, t.log) && CooldownNoted(pol, t)
  {
  }

  predicate Opens(e: Event) {
    e.Started? || e.Saved?
  }

  predicate Intrudes(e: Event) {
    e.Started? || e.Deleted?
  }

  ghost predicate EndedBetween(log: seq<Event>, i: int, j: int, call: nat) {
    exists k :: i < k < j && 0 <= k < |log| && log[k].Unregistered? && log[k].call == call
  }

  /** Between the registration of a solve, or the save it made, and its unregistration, no other solve of
      the domain starts and nobody deletes the domain's clearance. */
  ghost predicate SolvesUndisturbed(log: seq<Event>) {
    forall i, j | 0 <= i < j < |log| && Opens(log[i]) && Intrudes(log[j]) && log[i].domain == log[j].domain ::
      EndedBetween(log, i, j, log[i].call)
  }

  ghost predicate OpenInFlight(s: State) {
    forall i | 0 <= i < |s.log| && Opens(s.log[i]) ::
      || EndedBetween(s.log, i, |s.log|, s.log[i].call)
      || (s.log[i].domain in s.inflight && s.inflight[s.log[i].domain] == s.log[i].call)
  }

  lemma EndedGrows(log: seq<Event>, e: Event, i: int, j: int, call: nat)
    requires j <= |log| && EndedBetween(log, i, j, call)
    ensures forall j' :: j <= j' ==> EndedBetween(log + [e], i, j', call)
  {
    var k :| i < k < j && 0 <= k < |log| && log[k].Unregistered? && log[k].call == call;
    assert (log + [e])[k] == log[k];
  }

  lemma UndisturbedStep(pol: Policy, s: State, t: State, e: Option<Event>)
    requires Recorded(pol, s, t, e) && SolvesUndisturbed(s.log) && OpenInFlight(s)
    ensures SolvesUndisturbed(t.log) && OpenInFlight(t)
  {
    if e.Some? {
      var n := |s.log|;
      forall i, j | 0 <= i < j < |t.log| && Opens(t.log[i]) && Intrudes(t.log[j]) && t.log[i].domain == t.log[j].domain
        ensures EndedBetween(t.log, i, j, t.log[i].call)
      {
        assert t.log[i] == s.log[i];
        assert j < n ==> t.log[j] == s.log[j];
        EndedGrows(s.log, e.value, i, j, s.log[i].call);
      }
      forall i | 0 <= i < |t.log| && Opens(t.log[i])
        ensures || EndedBetween(t.log, i, |t.log|, t.log[i].call)
                || (t.log[i].domain in t.inflight && t.inflight[t.log[i].domain] == t.log[i].call)
      {
        if i < n {
          assert t.log[i] == s.log[i];
          if EndedBetween(s.log, i, n, s.log[i].call) {
            EndedGrows(s.log, e.value, i, n, s.log[i].call);
          } else if e.value.Unregistered? {
            assert t.log[n] == e.value;
          }
        }
      }
    } else {
      assert t.log == s.log;
    }
  }

  /** Every clearance ever stored was saved by a solve, under a User-Agent and fresh against what it replaced. */
  ghost predicate SavesAreFresh(log: seq<Event>) {
    forall i | 0 <= i < |log| && log[i].Saved? ::
      log[i].clearance.userAgent != "" && HasFreshClearance(log[i].clearance.cookies, log[i].rejected)
  }

  ghost predicate SavedIn(log: seq<Event>, d: Domain, clearance: Clearance) {
    exists i :: 0 <= i < |log| && log[i].Saved? && log[i].domain == d && log[i].clearance == clearance
  }

  ghost predicate StoreWasSaved(s: State) {
    forall d | d in s.store :: SavedIn(s.log, d, s.store[d])
  }

  lemma StoreStep(pol: Policy, s: State, t: State, e: Option<Event>)
    requires Recorded(pol, s, t, e) && SavesAreFresh(s.log) && StoreWasSaved(s)
    ensures SavesAreFresh(t.log) && StoreWasSaved(t)
  {
    forall d | d in t.store ensures SavedIn(t.log, d, t.store[d]) {
      if d in s.store && t.store[d] == s.store[d] {
        var i :| 0 <= i < |s.log| && s.log[i].Saved? && s.log[i].domain == d && s.log[i].clearance == s.store[d];
        assert t.log[i] == s.log[i];
      } else {
        assert t.log[|s.log|] == e.value;
      }
    }
  }
}
