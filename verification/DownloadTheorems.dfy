/** What holds of every download run: the counters, the gate, the throttle, that the run ends, and what its final
    status means. */
module DownloadTheorems {
  import opened Basics
  import opened EpisodePipeline
  import opened DownloadRun

  ghost predicate AllDone(s: State) {
    forall i | 0 <= i < |s.workers| :: s.workers[i].pc.Done?
  }

  // ---------------------------------------------------------------- the counters

  function Outcomes(xs: seq<Worker>): seq<AnimeOutcome> {
    if xs == [] then [] else [xs[0].outcome] + Outcomes(xs[1..])
  }

  lemma {:induction false} EachAccounted(xs: seq<Worker>)
    requires forall i | 0 <= i < |xs| :: xs[i].outcome.skipped == !xs[i].outcome.checked
    ensures Total(xs).counts.skipped + Total(xs).counts.checked == |xs|
  {
    if xs != [] {
      EachAccounted(xs[1..]);
    }
  }

  lemma {:induction false} AllDelivered(xs: seq<Worker>)
    requires forall i | 0 <= i < |xs| :: xs[i].pc.Done?
    ensures Total(xs).delivered == multiset(Outcomes(xs)) && |Outcomes(xs)| == |xs|
  {
    if xs != [] {
      AllDelivered(xs[1..]);
      assert multiset([xs[0].outcome]) == multiset{xs[0].outcome};
    }
  }

  /** At every moment the counters are the sums over the animes' outcomes so far; when every worker is done each
      anime was counted once, as skipped or as checked, and its outcome was collected once. */
  lemma CountersAreSums(limit: int, animes: seq<nat>, steps: seq<Step>)
    requires ValidRun(limit, Init(animes), steps)
    ensures var s := After(limit, Init(animes), steps);
            && RunCounts(s.run) == Total(s.workers).counts
            && |s.workers| == |animes|
            && (AllDone(s) ==>
                  && s.run.skipped + s.run.checked == |animes|
                  && multiset(s.channel) == multiset(Outcomes(s.workers)))
  {
    var s := After(limit, Init(animes), steps);
    InitInv(limit, animes);
    RunInv(limit, Init(animes), steps);
    WorkersStay(limit, Init(animes), steps);
    if AllDone(s) {
      EachAccounted(s.workers);
      AllDelivered(s.workers);
    }
  }

  lemma {:induction false} WorkersStay(limit: int, s: State, steps: seq<Step>)
    requires ValidRun(limit, s, steps)
    ensures |After(limit, s, steps).workers| == |s.workers|
    decreases |steps|
  {
    if steps != [] {
      WorkersStay(limit, Apply(s, steps[0]), steps[1..]);
    }
  }

  lemma {:induction false} DeliveredByOne(xs: seq<Worker>, o: AnimeOutcome) returns (i: nat)
    requires o in Total(xs).delivered
    ensures i < |xs| && Over(xs[i].pc) && xs[i].outcome == o
  {
    if o in Share(xs[0]).delivered {
      i := 0;
    } else {
      assert Total(xs).delivered == Share(xs[0]).delivered + Total(xs[1..]).delivered;
      i := DeliveredByOne(xs[1..], o);
      i := i + 1;
    }
  }

  /** Every outcome ever delivered has the shape that the rows of a notification rely on. */
  lemma DeliveredAreWhole(limit: int, animes: seq<nat>, steps: seq<Step>, k: nat)
    requires ValidRun(limit, Init(animes), steps) && k < |After(limit, Init(animes), steps).channel|
    ensures Whole(After(limit, Init(animes), steps).channel[k])
  {
    var s := After(limit, Init(animes), steps);
    InitInv(limit, animes);
    RunInv(limit, Init(animes), steps);
    assert s.channel[k] in multiset(s.channel);
    var i := DeliveredByOne(s.workers, s.channel[k]);
    assert Shaped(s.workers[i]);
  }

  /** Links and outcomes are listed in the order they come: an offer puts its link last, a delivery its outcome, and no
      other move touches either list. */
  lemma ListedInOrder(limit: int, s: State, w: nat, m: Move)
    requires w < |s.workers| && Enabled(limit, s, w, m)
    ensures var x, t := s.workers[w], Next(s, w, m);
            && t.run.links == s.run.links + (if m.Offer? then [ManualLink(x.anime, x.pc.current + 1, m.links)] else [])
            && t.channel == s.channel + (if m.Deliver? then [x.outcome] else [])
  {
  }

  // ---------------------------------------------------------------- what the counters count

  /** How many workers ended as `which` says. */
  function Ended(xs: seq<Worker>, which: Ending -> bool): nat {
    if xs == [] then 0 else One(which(xs[0].ending)) + Ended(xs[1..], which)
  }

  function NotReadyFn(): Ending -> bool {
    (e: Ending) => e == Early(NotReady)
  }

  function CurrentFn(): Ending -> bool {
    (e: Ending) => e == Early(Current)
  }

  function FailedFn(): Ending -> bool {
    (e: Ending) => e.Ended? && e.end.Failing?
  }

  function Sum(xs: seq<Worker>, of: AnimeOutcome -> int): int {
    if xs == [] then 0 else of(xs[0].outcome) + Sum(xs[1..], of)
  }

  function FoundFn(): AnimeOutcome -> int {
    (o: AnimeOutcome) => o.found
  }

  function DownloadedFn(): AnimeOutcome -> int {
    (o: AnimeOutcome) => o.downloaded
  }

  /** A finished worker's flags are those of its ending. */
  ghost predicate Flagged(x: Worker) {
    && (x.outcome.skipped <==> x.ending == Early(NotReady))
    && (x.outcome.upToDate <==> x.ending == Early(Current))
    && x.outcome.failedEpisodes == One(x.ending.Ended? && x.ending.end.Failing?)
  }

  lemma {:induction false} CountsOfEndings(xs: seq<Worker>)
    requires forall i | 0 <= i < |xs| :: Flagged(xs[i])
    ensures Total(xs).counts.skipped == Ended(xs, NotReadyFn()) && Total(xs).counts.upToDate == Ended(xs, CurrentFn())
    ensures Total(xs).counts.failed == Ended(xs, FailedFn())
    ensures Total(xs).counts.found == Sum(xs, FoundFn()) && Total(xs).counts.downloaded == Sum(xs, DownloadedFn())
  {
    if xs != [] {
      assert Flagged(xs[0]);
      CountsOfEndings(xs[1..]);
    }
  }

  /** When every worker is done: skipped counts the animes that were not ready, up to date the current ones, failed the
      animes an episode of which failed, and found and downloaded add up the animes' own numbers. */
  lemma CountersCountEndings(limit: int, animes: seq<nat>, steps: seq<Step>)
    requires ValidRun(limit, Init(animes), steps) && AllDone(After(limit, Init(animes), steps))
    ensures var s := After(limit, Init(animes), steps);
            && s.run.skipped == Ended(s.workers, NotReadyFn()) && s.run.checked == |animes| - Ended(s.workers, NotReadyFn())
            && s.run.upToDate == Ended(s.workers, CurrentFn()) && s.run.failed == Ended(s.workers, FailedFn())
            && s.run.found == Sum(s.workers, FoundFn()) && s.run.downloaded == Sum(s.workers, DownloadedFn())
  {
    var s := After(limit, Init(animes), steps);
    CountersAreSums(limit, animes, steps);
    InitInv(limit, animes);
    RunInv(limit, Init(animes), steps);
    forall i | 0 <= i < |s.workers| ensures Flagged(s.workers[i]) {
      assert Shaped(s.workers[i]);
    }
    CountsOfEndings(s.workers);
  }

  // ---------------------------------------------------------------- the gate

  lemma {:induction false} NoneDownloaded(xs: seq<Worker>)
    requires forall i | 0 <= i < |xs| :: xs[i].outcome.downloaded == 0
    ensures Total(xs).counts.downloaded == 0
  {
    if xs != [] {
      NoneDownloaded(xs[1..]);
    }
  }

  lemma {:induction false} NoneOffered(xs: seq<Worker>)
    requires forall i | 0 <= i < |xs| :: xs[i].outcome.manualLinks == []
    ensures Total(xs).counts.links == multiset{}
  {
    if xs != [] {
      NoneOffered(xs[1..]);
    }
  }

  /** The JD gate splits runs in two: offline, nothing at all is downloaded; online, nothing is offered by hand.
      It is asked at most once, and the run's JDAvailable is its answer. */
  lemma GateSplitsRuns(limit: int, animes: seq<nat>, steps: seq<Step>)
    requires ValidRun(limit, Init(animes), steps)
    ensures var s := After(limit, Init(animes), steps);
            && s.gate.resolutions <= 1
            && (s.gate.once.Finished? ==> s.jdAvailable == s.gate.value)
            && (!(s.gate.resolved && s.gate.value) ==> s.run.downloaded == 0)
            && (!KnownOffline(s.gate) ==> s.run.links == [])
  {
    var s := After(limit, Init(animes), steps);
    InitInv(limit, animes);
    RunInv(limit, Init(animes), steps);
    if !(s.gate.resolved && s.gate.value) {
      NoneDownloaded(s.workers);
    }
    if !KnownOffline(s.gate) {
      NoneOffered(s.workers);
      assert |multiset(s.run.links)| == 0;
    }
  }

  /** An episode of this worker's anime is known to be missing. */
  predicate Lacks(x: Worker) {
    x.pc.AtGate? || x.pc.Resolving? || x.pc.Reporting? || x.pc.Announcing? || x.outcome.found > 0
  }

  ghost predicate AskedForCause(s: State) {
    s.gate.once.Fresh? || exists i :: 0 <= i < |s.workers| && Lacks(s.workers[i])
  }

  lemma LacksStays(limit: int, s: State, w: nat, m: Move)
    requires w < |s.workers| && Enabled(limit, s, w, m) && Shaped(s.workers[w])
    ensures Lacks(s.workers[w]) ==> Lacks(Next(s, w, m).workers[w])
    ensures m.Enter? ==> Lacks(Next(s, w, m).workers[w])
  {
  }

  lemma FreshStays(s: State, w: nat, m: Move, limit: int)
    requires w < |s.workers| && Enabled(limit, s, w, m) && AtPeace(s.workers[w], w, s.gate)
    ensures s.gate.once.Fresh? && !m.Enter? ==> Next(s, w, m).gate.once.Fresh?
  {
  }

  lemma AskedForCauseStep(limit: int, s: State, step: Step)
    requires Inv(limit, s) && Allowed(limit, s, step) && AskedForCause(s)
    ensures AskedForCause(Apply(s, step))
  {
    if step.Act? {
      var w, s' := step.w, Apply(s, step);
      LacksStays(limit, s, w, step.move);
      FreshStays(s, w, step.move, limit);
      if s.gate.once.Fresh? {
        assert step.move.Enter? ==> Lacks(s'.workers[w]);
      } else {
        var i :| 0 <= i < |s.workers| && Lacks(s.workers[i]);
        assert Lacks(s'.workers[i]) by {
          assert i != w ==> s'.workers[i] == s.workers[i];
        }
      }
    }
  }

  /** What a resolved gate says never changes. */
  lemma GateStays(limit: int, s: State, step: Step)
    requires Inv(limit, s) && Allowed(limit, s, step) && s.gate.resolved
    ensures Apply(s, step).gate.resolved && Apply(s, step).gate.value == s.gate.value
  {
    if step.Act? {
      assert AtPeace(s.workers[step.w], step.w, s.gate);
    }
  }

  lemma {:induction false} GateHistory(limit: int, s: State, steps: seq<Step>)
    requires Inv(limit, s) && ValidRun(limit, s, steps) && AskedForCause(s)
    ensures AskedForCause(After(limit, s, steps))
    ensures KnownOffline(s.gate) ==> KnownOffline(After(limit, s, steps).gate)
    decreases |steps|
  {
    if steps != [] {
      InvStep(limit, s, steps[0]);
      AskedForCauseStep(limit, s, steps[0]);
      if KnownOffline(s.gate) {
        GateStays(limit, s, steps[0]);
      }
      GateHistory(limit, Apply(s, steps[0]), steps[1..]);
    }
  }

  /** JDownloader is launched only once some anime lacks an episode, and offline once known stays known. */
  lemma LaunchedOnlyForCause(limit: int, animes: seq<nat>, before: seq<Step>, after: seq<Step>)
    requires ValidRun(limit, Init(animes), before) && ValidRun(limit, After(limit, Init(animes), before), after)
    ensures var s := After(limit, Init(animes), before);
            && AskedForCause(s)
            && (KnownOffline(s.gate) ==> KnownOffline(After(limit, s, after).gate))
  {
    InitInv(limit, animes);
    RunInv(limit, Init(animes), before);
    GateHistory(limit, Init(animes), before);
    GateHistory(limit, After(limit, Init(animes), before), after);
  }

  // ---------------------------------------------------------------- the run moves on and ends

  predicate Busy(x: Worker) {
    !x.pc.Queued? && !x.pc.Done?
  }

  lemma {:induction false} SlotsAreBusy(xs: seq<Worker>)
    requires forall i | 0 <= i < |xs| :: !Busy(xs[i])
    ensures Total(xs).busy == 0
  {
    if xs != [] {
      SlotsAreBusy(xs[1..]);
    }
  }

  /** A busy worker can move, or the worker it waits for can. */
  lemma BusyMoves(limit: int, s: State, i: nat) returns (w: nat, m: Move)
    requires Inv(limit, s) && i < |s.workers| && Busy(s.workers[i])
    ensures w < |s.workers| && Enabled(limit, s, w, m)
  {
    assert Shaped(s.workers[i]) && GateSound(s);
    var pc := s.workers[i].pc;
    w := i;
    match pc {
      case Preparing => m := Conclude(NotReady);
      case AtGate(_, _) =>
        if s.gate.once.Running? {
          w := s.gate.once.leader;
          m := if s.gate.resolved then Report else Resolve(true);
        } else {
          m := Enter;
        }
      case Resolving(_, _) => m := Resolve(true);
      case Reporting(_, _) => m := Report;
      case Announcing(_, _) => m := Announce;
      case Working(current, latest) => m := if current >= latest then Complete else Judge;
      case Judged(_, _, offline) => m := if offline then Offer([""]) else FailHosters(HosterDown);
      case Leaving => m := Deliver;
      case _ => m := Release;
    }
  }

  /** Nothing is ever stuck: while a worker is not done, some worker can move, whatever the throttle. */
  lemma RunNeverStalls(limit: int, animes: seq<nat>, steps: seq<Step>) returns (w: nat, m: Move)
    requires ValidRun(limit, Init(animes), steps)
    requires !AllDone(After(limit, Init(animes), steps))
    ensures var s := After(limit, Init(animes), steps); w < |s.workers| && Enabled(limit, s, w, m)
  {
    var s := After(limit, Init(animes), steps);
    InitInv(limit, animes);
    RunInv(limit, Init(animes), steps);
    if i :| 0 <= i < |s.workers| && Busy(s.workers[i]) {
      w, m := BusyMoves(limit, s, i);
    } else {
      SlotsAreBusy(s.workers);
      var i :| 0 <= i < |s.workers| && !s.workers[i].pc.Done?;
      w, m := i, Acquire;
    }
  }

  /** How many moves a worker has left, when no listing goes beyond `top`. */
  function Rank(x: Worker, top: nat): nat {
    match x.pc
    case Queued => 2 * top + 10
    case Preparing => 2 * top + 9
    case AtGate(_, latest) => 2 * latest + 8
    case Resolving(_, latest) => 2 * latest + 7
    case Reporting(_, latest) => 2 * latest + 6
    case Announcing(_, latest) => 2 * latest + 5
    case Working(current, latest) => 2 * Max(latest - current, 0) + 4
    case Judged(current, latest, _) => 2 * Max(latest - current, 0) + 3
    case Leaving => 2
    case Delivered => 1
    case Done => 0
  }

  function Ranks(xs: seq<Worker>, top: nat): nat {
    if xs == [] then 0 else Rank(xs[0], top) + Ranks(xs[1..], top)
  }

  lemma {:induction false} RanksUpdate(xs: seq<Worker>, w: nat, x: Worker, top: nat)
    requires w < |xs|
    ensures Ranks(xs[w := x], top) == Ranks(xs, top) - Rank(xs[w], top) + Rank(x, top)
  {
    if w == 0 {
      assert xs[w := x][1..] == xs[1..];
    } else {
      assert xs[w := x][1..] == xs[1..][w - 1 := x];
      RanksUpdate(xs[1..], w - 1, x, top);
    }
  }

  lemma {:induction false} RanksAtStart(xs: seq<Worker>, top: nat)
    requires forall i | 0 <= i < |xs| :: xs[i].pc.Queued?
    ensures Ranks(xs, top) == |xs| * (2 * top + 10)
  {
    if xs != [] {
      RanksAtStart(xs[1..], top);
    }
  }

  lemma RankFalls(limit: int, s: State, w: nat, m: Move, top: nat)
    requires w < |s.workers| && Enabled(limit, s, w, m) && Shaped(s.workers[w]) && (m.Find? ==> m.latest <= top)
    ensures Rank(Next(s, w, m).workers[w], top) < Rank(s.workers[w], top)
  {
  }

  /** No listing in the run names an episode beyond `top`. */
  predicate ListsUpTo(steps: seq<Step>, top: nat) {
    forall i | 0 <= i < |steps| :: steps[i].Act? && steps[i].move.Find? ==> steps[i].move.latest <= top
  }

  function Moves(steps: seq<Step>): nat {
    if steps == [] then 0 else One(steps[0].Act?) + Moves(steps[1..])
  }

  lemma {:induction false} MovesBounded(limit: int, s: State, steps: seq<Step>, top: nat)
    requires Inv(limit, s) && ValidRun(limit, s, steps) && ListsUpTo(steps, top)
    ensures Moves(steps) + Ranks(After(limit, s, steps).workers, top) <= Ranks(s.workers, top)
    decreases |steps|
  {
    if steps != [] {
      var s' := Apply(s, steps[0]);
      assert ListsUpTo(steps[1..], top) by {
        assert forall i | 0 <= i < |steps[1..]| :: steps[1..][i] == steps[i + 1];
      }
      match steps[0] {
        case Stop =>
        case Act(w, m) =>
          RankFalls(limit, s, w, m, top);
          RanksUpdate(s.workers, w, s'.workers[w], top);
      }
      InvStep(limit, s, steps[0]);
      MovesBounded(limit, s', steps[1..], top);
    }
  }

  /** A run ends: no interleaving takes more than this many moves. */
  lemma RunIsBounded(limit: int, animes: seq<nat>, steps: seq<Step>, top: nat)
    requires ValidRun(limit, Init(animes), steps) && ListsUpTo(steps, top)
    ensures Moves(steps) <= |animes| * (2 * top + 10)
  {
    var xs := Init(animes).workers;
    RanksAtStart(xs, top);
    assert |xs| == |animes|;
    InitInv(limit, animes);
    MovesBounded(limit, Init(animes), steps, top);
  }

  /** Never more animes at once than the limit allows. */
  lemma ThrottleHolds(limit: int, animes: seq<nat>, steps: seq<Step>)
    requires ValidRun(limit, Init(animes), steps)
    ensures var s := After(limit, Init(animes), steps);
            s.slots == BusyWorkers(s.workers) && (limit > 0 ==> BusyWorkers(s.workers) <= limit)
  {
    var s := After(limit, Init(animes), steps);
    InitInv(limit, animes);
    RunInv(limit, Init(animes), steps);
    BusyIsBusy(s.workers);
  }

  function BusyWorkers(xs: seq<Worker>): nat {
    if xs == [] then 0 else One(Busy(xs[0])) + BusyWorkers(xs[1..])
  }

  lemma {:induction false} BusyIsBusy(xs: seq<Worker>)
    ensures Total(xs).busy == BusyWorkers(xs)
  {
    if xs != [] {
      BusyIsBusy(xs[1..]);
    }
  }

  // ---------------------------------------------------------------- the final status

  datatype RunStatus = Canceled | JDOffline | Partial | Error | OK

  ghost predicate AnyFailed(outcomes: seq<AnimeOutcome>) {
    exists i | 0 <= i < |outcomes| :: outcomes[i].failed
  }

  predicate Succeeded(o: AnimeOutcome) {
    o.downloaded > 0 || (!o.failed && o.found == 0)
  }

  ghost predicate AnySucceeded(outcomes: seq<AnimeOutcome>) {
    exists i | 0 <= i < |outcomes| :: Succeeded(outcomes[i])
  }

  method SummarizeAnimeOutcomes(outcomes: seq<AnimeOutcome>) returns (anyFailed: bool, anySucceeded: bool, collected: seq<AnimeOutcome>)
    ensures anyFailed <==> AnyFailed(outcomes)
    ensures anySucceeded <==> AnySucceeded(outcomes)
    ensures collected == outcomes
  {
    anyFailed, anySucceeded, collected := false, false, [];
    for i := 0 to |outcomes|
      invariant anyFailed <==> exists k | 0 <= k < i :: outcomes[k].failed
      invariant anySucceeded <==> exists k | 0 <= k < i :: Succeeded(outcomes[k])
      invariant collected == outcomes[..i]
    {
      anyFailed := anyFailed || outcomes[i].failed;
      anySucceeded := anySucceeded || outcomes[i].downloaded > 0 || (!outcomes[i].failed && outcomes[i].found == 0);
      collected := collected + [outcomes[i]];
    }
  }

  /** setRunCompletionStatus's ladder. */
  function CompletionStatus(s: State, anyFailed: bool, anySucceeded: bool): RunStatus {
    if s.stopped then Canceled
    else if KnownOffline(s.gate) && |s.run.links| > 0 then JDOffline
    else if anyFailed && anySucceeded then Partial
    else if anyFailed then Error
    else OK
  }

  lemma {:induction false} InOutcomes(xs: seq<Worker>, o: AnimeOutcome)
    ensures o in Outcomes(xs) <==> exists i :: 0 <= i < |xs| && xs[i].outcome == o
  {
    if xs != [] {
      InOutcomes(xs[1..], o);
      if i :| 0 <= i < |xs| && xs[i].outcome == o {
        assert i > 0 ==> xs[1..][i - 1].outcome == o;
      }
      if o in Outcomes(xs[1..]) {
        var i :| 0 <= i < |xs[1..]| && xs[1..][i].outcome == o;
        assert xs[i + 1].outcome == o;
      }
    }
  }

  lemma {:induction false} OfferedIsLinked(xs: seq<Worker>, i: nat)
    requires i < |xs| && xs[i].outcome.manualLinks != []
    ensures |Total(xs).counts.links| > 0
  {
    if i == 0 {
      assert xs[0].outcome.manualLinks[0] in multiset(xs[0].outcome.manualLinks);
    } else {
      OfferedIsLinked(xs[1..], i - 1);
    }
  }

  ghost predicate SomeOffered(xs: seq<Worker>) {
    exists i :: 0 <= i < |xs| && Offering(xs[i].ending)
  }

  ghost predicate SomeFailed(xs: seq<Worker>) {
    exists i :: 0 <= i < |xs| && Fails(xs[i].ending)
  }

  /** The channel holds a failure exactly when some worker ended in one. */
  lemma FailuresDelivered(limit: int, s: State)
    requires Inv(limit, s) && AllDone(s)
    ensures AnyFailed(s.channel) <==> SomeFailed(s.workers)
  {
    AllDelivered(s.workers);
    assert forall o :: o in s.channel <==> o in multiset(s.channel);
    if AnyFailed(s.channel) {
      var k :| 0 <= k < |s.channel| && s.channel[k].failed;
      assert s.channel[k] in multiset(Outcomes(s.workers));
      InOutcomes(s.workers, s.channel[k]);
      var i :| 0 <= i < |s.workers| && s.workers[i].outcome == s.channel[k];
      assert Shaped(s.workers[i]);
    }
    if i :| 0 <= i < |s.workers| && Fails(s.workers[i].ending) {
      assert Shaped(s.workers[i]);
      InOutcomes(s.workers, s.workers[i].outcome);
      assert s.workers[i].outcome in multiset(s.channel);
    }
  }

  /** The anime was not ready or already current, or the run downloaded some episode of it. */
  predicate Good(x: Worker) {
    x.outcome.downloaded > 0 || (x.ending.Early? && !x.ending.why.Unprepared?)
  }

  ghost predicate SomeGood(xs: seq<Worker>) {
    exists i :: 0 <= i < |xs| && Good(xs[i])
  }

  lemma GoodSucceeded(x: Worker)
    requires Shaped(x) && Over(x.pc)
    ensures Succeeded(x.outcome) <==> Good(x)
  {
  }

  /** The channel holds a success exactly when some worker's anime is good. */
  lemma SuccessesDelivered(limit: int, s: State)
    requires Inv(limit, s) && AllDone(s)
    ensures AnySucceeded(s.channel) <==> SomeGood(s.workers)
  {
    AllDelivered(s.workers);
    assert forall o :: o in s.channel <==> o in multiset(s.channel);
    if AnySucceeded(s.channel) {
      var k :| 0 <= k < |s.channel| && Succeeded(s.channel[k]);
      assert s.channel[k] in multiset(Outcomes(s.workers));
      InOutcomes(s.workers, s.channel[k]);
      var i :| 0 <= i < |s.workers| && s.workers[i].outcome == s.channel[k];
      GoodSucceeded(s.workers[i]);
    }
    if i :| 0 <= i < |s.workers| && Good(s.workers[i]) {
      GoodSucceeded(s.workers[i]);
      InOutcomes(s.workers, s.workers[i].outcome);
      assert s.workers[i].outcome in multiset(s.channel);
    }
  }

  lemma OffersLinked(limit: int, s: State)
    requires Inv(limit, s) && AllDone(s)
    ensures s.run.links != [] <==> SomeOffered(s.workers)
    ensures s.run.links != [] ==> KnownOffline(s.gate)
  {
    if i :| 0 <= i < |s.workers| && Offering(s.workers[i].ending) {
      assert Shaped(s.workers[i]) && AtPeace(s.workers[i], i, s.gate);
      OfferedIsLinked(s.workers, i);
      assert |multiset(s.run.links)| > 0;
    } else {
      assert forall i | 0 <= i < |s.workers| :: Shaped(s.workers[i]);
      NoneOffered(s.workers);
      assert |multiset(s.run.links)| == 0;
    }
  }

  /** The anime needed nothing, or got every episode listed. */
  predicate Satisfied(e: Ending) {
    (e.Early? && !e.why.Unprepared?) || e.CaughtUp?
  }

  lemma EndingsSort(x: Worker)
    requires Shaped(x) && Over(x.pc)
    ensures Satisfied(x.ending) <==> !x.ending.Halted? && !Offering(x.ending) && !Fails(x.ending)
  {
  }

  lemma AllSatisfied(limit: int, s: State)
    requires Inv(limit, s) && AllDone(s) && !s.stopped
    ensures !SomeOffered(s.workers) && !SomeFailed(s.workers) <==> forall i | 0 <= i < |s.workers| :: Satisfied(s.workers[i].ending)
  {
    forall i | 0 <= i < |s.workers|
      ensures Satisfied(s.workers[i].ending) <==> !Offering(s.workers[i].ending) && !Fails(s.workers[i].ending)
    {
      EndingsSort(s.workers[i]);
    }
  }

  lemma StatusOf(limit: int, s: State, status: RunStatus)
    requires Inv(limit, s) && AllDone(s)
    requires status == CompletionStatus(s, AnyFailed(s.channel), AnySucceeded(s.channel))
    ensures status == Canceled <==> s.stopped
    ensures status == JDOffline <==> !s.stopped && SomeOffered(s.workers)
    ensures status == OK <==> !s.stopped && !SomeOffered(s.workers) && !SomeFailed(s.workers)
    ensures status == Partial <==> !s.stopped && !SomeOffered(s.workers) && SomeFailed(s.workers) && SomeGood(s.workers)
    ensures status == Error <==> !s.stopped && !SomeOffered(s.workers) && SomeFailed(s.workers) && !SomeGood(s.workers)
  {
    FailuresDelivered(limit, s);
    SuccessesDelivered(limit, s);
    OffersLinked(limit, s);
  }

  /** What the status of a finished run says about its animes, exactly. */
  lemma StatusMeans(limit: int, animes: seq<nat>, steps: seq<Step>)
    requires ValidRun(limit, Init(animes), steps) && AllDone(After(limit, Init(animes), steps))
    ensures var s := After(limit, Init(animes), steps);
            var status := CompletionStatus(s, AnyFailed(s.channel), AnySucceeded(s.channel));
            && (status == Canceled <==> s.stopped)
            && (status == JDOffline <==> !s.stopped && SomeOffered(s.workers))
            && (status == JDOffline ==> s.run.downloaded == 0)
            && (status == Partial <==> !s.stopped && !SomeOffered(s.workers) && SomeFailed(s.workers) && SomeGood(s.workers))
            && (status == Error <==> !s.stopped && !SomeOffered(s.workers) && SomeFailed(s.workers) && !SomeGood(s.workers))
            && (status == OK <==> !s.stopped && forall i | 0 <= i < |s.workers| :: Satisfied(s.workers[i].ending))
  {
    var s := After(limit, Init(animes), steps);
    InitInv(limit, animes);
    RunInv(limit, Init(animes), steps);
    GateSplitsRuns(limit, animes, steps);
    StatusOf(limit, s, CompletionStatus(s, AnyFailed(s.channel), AnySucceeded(s.channel)));
    if !s.stopped {
      AllSatisfied(limit, s);
    }
  }
}
