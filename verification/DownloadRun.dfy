/** A whole download run (internal/download/service.go:319-415, jd_gate.go): one worker per selected anime, a
    counting semaphore, a gate that is resolved at most once, counters behind a mutex and a channel of outcomes,
    under every interleaving. What one worker does between two of these steps is EpisodePipeline's subject. */
module DownloadRun {
  import opened Basics
  import opened EpisodePipeline

  // ---------------------------------------------------------------- state

  datatype Pc =
    | Queued
    | Preparing
    | AtGate(onDisk: nat, latest: nat)
    | Resolving(onDisk: nat, latest: nat)
    | Reporting(onDisk: nat, latest: nat)
    | Announcing(onDisk: nat, latest: nat)
    | Working(current: nat, latest: nat)
    | Judged(current: nat, latest: nat, offline: bool)
    | Leaving
    | Delivered
    | Done

  /** Why a worker stopped looking for episodes. */
  datatype Ending = Unended | Early(why: EarlyEnd) | CaughtUp | Halted | Ended(end: EpisodeEnd)

  datatype Worker = Worker(anime: nat, pc: Pc, outcome: AnimeOutcome, ending: Ending)

  datatype Once = Fresh | Running(leader: nat) | Finished

  datatype Gate = Gate(once: Once, resolved: bool, value: bool, resolutions: nat)

  datatype State = State(
    workers: seq<Worker>, run: Tally, gate: Gate, jdAvailable: bool, slots: nat, channel: seq<AnimeOutcome>, stopped: bool)

  function InitWorker(anime: nat): Worker {
    Worker(anime, Queued, NothingYet(anime), Unended)
  }

  function Init(animes: seq<nat>): State {
    State(seq(|animes|, i requires 0 <= i < |animes| => InitWorker(animes[i])), Tally(0, 0, 0, 0, 0, 0, []), Gate(Fresh, false, false, 0),
          false, 0, [], false)
  }

  // ---------------------------------------------------------------- steps

  datatype Move =
    | Acquire
    | Conclude(why: EarlyEnd)
    | Find(onDisk: nat, latest: nat)
    | Enter
    | Resolve(answer: bool)
    | Report
    | Announce
    | Halt
    | Complete
    | FailSite
    | Judge
    | Offer(links: seq<string>)
    | Land(cursor: nat)
    | FailHosters(failure: FailureKind)
    | Deliver
    | Release

  datatype Step = Stop | Act(w: nat, move: Move)

  predicate KnownOffline(g: Gate) {
    g.resolved && !g.value
  }

  /** What a worker at `x` may do next in state `s`; `limit` is the concurrency limit, none when it is below 1. */
  predicate Enabled(limit: int, s: State, w: nat, m: Move)
    requires w < |s.workers|
  {
    var pc := s.workers[w].pc;
    match m
    case Acquire => pc.Queued? && (limit > 0 ==> s.slots < limit)
    case Conclude(_) => pc.Preparing?
    case Find(onDisk, latest) => pc.Preparing? && onDisk < latest
    case Enter => pc.AtGate? && !s.gate.once.Running?
    case Resolve(_) => pc.Resolving?
    case Report => pc.Reporting?
    case Announce => pc.Announcing?
    case Halt => pc.Working? && pc.current < pc.latest && s.stopped
    case Complete => pc.Working? && pc.current >= pc.latest
    case FailSite => pc.Working? && pc.current < pc.latest
    case Judge => pc.Working? && pc.current < pc.latest
    case Offer(links) => pc.Judged? && pc.offline && links != []
    case Land(cursor) => pc.Judged? && !pc.offline && cursor > pc.current
    case FailHosters(_) => pc.Judged? && !pc.offline
    case Deliver => pc.Leaving?
    case Release => pc.Delivered?
  }

  /** The end of the episode a move brings about. */
  function EndOf(x: Worker, m: Move): EpisodeEnd {
    match m
    case Offer(links) => Offered(ManualLink(x.anime, if x.pc.Judged? then x.pc.current + 1 else 0, links))
    case Land(cursor) => Landed(cursor)
    case FailHosters(failure) => Failing(failure)
    case _ => Failing(HosterDown)
  }

  predicate EndsEpisode(m: Move) {
    m.FailSite? || m.Offer? || m.Land? || m.FailHosters?
  }

  /** The delta a move hands to the counters, if any. */
  function Emitted(x: Worker, m: Move): Option<AnimeOutcome> {
    match m
    case Conclude(why) => Some(EarlyDelta(x.anime, why))
    case Announce =>
      if x.pc.Announcing? then Some(Announcement(x.anime, x.pc.latest - x.pc.onDisk)) else None
    case _ => if EndsEpisode(m) then Some(DeltaOf(x.anime, EndOf(x, m))) else None
  }

  function NextPc(s: State, x: Worker, m: Move): Pc {
    match x.pc
    case Queued => Preparing
    case Preparing => if m.Find? then AtGate(m.onDisk, m.latest) else Leaving
    case AtGate(onDisk, latest) => if s.gate.once.Fresh? then Resolving(onDisk, latest) else Announcing(onDisk, latest)
    case Resolving(onDisk, latest) => Reporting(onDisk, latest)
    case Reporting(onDisk, latest) => Announcing(onDisk, latest)
    case Announcing(onDisk, latest) => Working(onDisk, latest)
    case Working(current, latest) => if m.Judge? then Judged(current, latest, KnownOffline(s.gate)) else Leaving
    case Judged(_, latest, _) => if m.Land? then Working(m.cursor, latest) else Leaving
    case Leaving => Delivered
    case _ => Done
  }

  function NextOutcome(x: Worker, m: Move): AnimeOutcome {
    match m
    case Conclude(why) => EarlyOutcome(x.anime, why)
    case Announce =>
      if x.pc.Announcing? then Announcement(x.anime, x.pc.latest - x.pc.onDisk) else x.outcome
    case _ =>
      if EndsEpisode(m) then
        Advance(x.outcome, EndOf(x, m), if x.pc.Judged? then x.pc.current + 1 else if x.pc.Working? then x.pc.current + 1 else 0)
      else x.outcome
  }

  function NextEnding(x: Worker, m: Move): Ending {
    match m
    case Conclude(why) => Early(why)
    case Halt => Halted
    case Complete => CaughtUp
    case _ => if EndsEpisode(m) && !m.Land? then Ended(EndOf(x, m)) else x.ending
  }

  function NextGate(g: Gate, w: nat, m: Move): Gate {
    match m
    case Enter => if g.once.Fresh? then g.(once := Running(w)) else g
    case Resolve(answer) => g.(resolved := true, value := answer, resolutions := g.resolutions + 1)
    case Report => g.(once := Finished)
    case _ => g
  }

  function Next(s: State, w: nat, m: Move): State
    requires w < |s.workers|
  {
    var x := s.workers[w];
    State(
      s.workers[w := Worker(x.anime, NextPc(s, x, m), NextOutcome(x, m), NextEnding(x, m))],
      if Emitted(x, m).Some? then ApplyProgressDelta(s.run, Emitted(x, m).value) else s.run,
      NextGate(s.gate, w, m),
      if m.Report? then s.gate.value else s.jdAvailable,
      if m.Acquire? then s.slots + 1 else if m.Release? && s.slots > 0 then s.slots - 1 else s.slots,
      if m.Deliver? then s.channel + [x.outcome] else s.channel,
      s.stopped)
  }

  predicate Allowed(limit: int, s: State, step: Step) {
    step.Act? ==> step.w < |s.workers| && Enabled(limit, s, step.w, step.move)
  }

  function Apply(s: State, step: Step): State
    requires step.Act? ==> step.w < |s.workers|
  {
    match step
    case Stop => s.(stopped := true)
    case Act(w, m) => Next(s, w, m)
  }

  ghost predicate ValidRun(limit: int, s: State, steps: seq<Step>)
    decreases |steps|
  {
    steps == [] || (Allowed(limit, s, steps[0]) && ValidRun(limit, Apply(s, steps[0]), steps[1..]))
  }

  ghost function After(limit: int, s: State, steps: seq<Step>): State
    requires ValidRun(limit, s, steps)
    decreases |steps|
  {
    if steps == [] then s else After(limit, Apply(s, steps[0]), steps[1..])
  }

  // ---------------------------------------------------------------- the books

  /** The run's counters, with the manual links in no order. */
  datatype Counts = Counts(
    skipped: int, checked: int, upToDate: int, found: int, downloaded: int, failed: int, links: multiset<ManualLink>)

  /** Everything that is a sum over workers: the counters, the slots taken and the outcomes delivered. */
  datatype Books = Books(counts: Counts, busy: int, delivered: multiset<AnimeOutcome>)

  ghost function Add(a: Counts, b: Counts): Counts {
    Counts(a.skipped + b.skipped, a.checked + b.checked, a.upToDate + b.upToDate, a.found + b.found,
           a.downloaded + b.downloaded, a.failed + b.failed, a.links + b.links)
  }

  ghost function Plus(a: Books, b: Books): Books {
    Books(Add(a.counts, b.counts), a.busy + b.busy, a.delivered + b.delivered)
  }

  /** An outcome's (or a delta's) part of the counters. */
  ghost function CountsOf(o: AnimeOutcome): Counts {
    Counts(One(o.skipped), One(o.checked), One(o.upToDate), o.found, o.downloaded, o.failedEpisodes, multiset(o.manualLinks))
  }

  ghost function RunCounts(run: Tally): Counts {
    Counts(run.skipped, run.checked, run.upToDate, run.found, run.downloaded, run.failed, multiset(run.links))
  }

  ghost function Share(x: Worker): Books {
    Books(CountsOf(x.outcome), if x.pc.Queued? || x.pc.Done? then 0 else 1,
          if x.pc.Delivered? || x.pc.Done? then multiset{x.outcome} else multiset{})
  }

  ghost function Total(xs: seq<Worker>): Books {
    if xs == [] then Books(Counts(0, 0, 0, 0, 0, 0, multiset{}), 0, multiset{}) else Plus(Share(xs[0]), Total(xs[1..]))
  }

  /** What the shared state says the books hold. */
  ghost function Held(s: State): Books {
    Books(RunCounts(s.run), s.slots, multiset(s.channel))
  }

  ghost predicate Balanced(s: State) {
    Total(s.workers) == Held(s)
  }

  ghost function SumShares(a: Books, xs: seq<Worker>): Books {
    Plus(a, Total(xs))
  }

  lemma TotalUnfolds(xs: seq<Worker>)
    requires xs != []
    ensures Total(xs) == SumShares(Share(xs[0]), xs[1..])
  {
  }

  // ---------------------------------------------------------------- what every step keeps

  predicate BeforeAnnouncing(pc: Pc) {
    pc.Queued? || pc.Preparing? || pc.AtGate? || pc.Resolving? || pc.Reporting? || pc.Announcing?
  }

  predicate Over(pc: Pc) {
    pc.Leaving? || pc.Delivered? || pc.Done?
  }

  predicate Fails(e: Ending) {
    (e.Early? && e.why.Unprepared?) || (e.Ended? && e.end.Failing?)
  }

  predicate Offering(e: Ending) {
    e.Ended? && e.end.Offered?
  }

  /** A worker's outcome tells where the worker is and how it ended. */
  ghost predicate Shaped(x: Worker) {
    && (BeforeAnnouncing(x.pc) ==> x.outcome == NothingYet(x.anime) && x.ending == Unended)
    && (x.pc.AtGate? || x.pc.Resolving? || x.pc.Reporting? || x.pc.Announcing? ==> x.pc.onDisk < x.pc.latest)
    && x.outcome.anime == x.anime
    && (x.pc.Judged? ==> x.pc.current < x.pc.latest)
    && (x.ending.Ended? ==> !x.ending.end.Landed?)
    && (x.pc.Working? || x.pc.Judged? ==>
          && x.ending == Unended && !x.outcome.failed && x.outcome.manualLinks == [] && x.outcome.found > 0
          && x.outcome.checked && !x.outcome.skipped && !x.outcome.upToDate && x.outcome.failedEpisodes == 0
          && x.outcome.downloaded + Max(x.pc.latest - x.pc.current, 0) <= x.outcome.found)
    && (Over(x.pc) ==>
          && x.ending != Unended && Whole(x.outcome)
          && (x.outcome.failed <==> Fails(x.ending))
          && (x.outcome.manualLinks != [] <==> Offering(x.ending))
          && (x.outcome.found == 0 <==> x.ending.Early?)
          && (x.outcome.skipped <==> x.ending == Early(NotReady))
          && (x.outcome.upToDate <==> x.ending == Early(Current)))
    && (x.outcome.downloaded > 0 || x.outcome.manualLinks != [] ==> x.outcome.found > 0)
    && x.outcome.found >= 0
  }

  /** What a worker has done fits the gate. */
  ghost predicate AtPeace(x: Worker, i: nat, g: Gate) {
    && (x.pc.Resolving? ==> g.once == Running(i) && !g.resolved)
    && (x.pc.Reporting? ==> g.once == Running(i) && g.resolved)
    && (x.pc.Announcing? || x.pc.Working? || x.pc.Judged? || x.outcome.found > 0 ==> g.once.Finished?)
    && (x.pc.Judged? ==> x.pc.offline == !g.value)
    && (x.outcome.downloaded > 0 ==> g.value)
    && (x.outcome.manualLinks != [] ==> !g.value)
  }

  ghost predicate GateSound(s: State) {
    && s.gate.resolutions == One(s.gate.resolved)
    && match s.gate.once
       case Fresh => !s.gate.resolved
       case Running(j) => j < |s.workers| && if s.gate.resolved then s.workers[j].pc.Reporting? else s.workers[j].pc.Resolving?
       case Finished => s.gate.resolved && s.jdAvailable == s.gate.value
  }

  ghost predicate WorkersSound(s: State) {
    forall i | 0 <= i < |s.workers| ::
      Shaped(s.workers[i]) && AtPeace(s.workers[i], i, s.gate) && (s.workers[i].ending.Halted? ==> s.stopped)
  }

  ghost predicate Inv(limit: int, s: State) {
    && Balanced(s) && WorkersSound(s) && GateSound(s)
    && (limit > 0 ==> s.slots <= limit)
  }

  lemma ShapedStep(limit: int, s: State, w: nat, m: Move)
    requires w < |s.workers| && Enabled(limit, s, w, m) && Shaped(s.workers[w])
    ensures Shaped(Next(s, w, m).workers[w])
  {
  }

  lemma AtPeaceStep(limit: int, s: State, w: nat, m: Move)
    requires w < |s.workers| && Enabled(limit, s, w, m) && Shaped(s.workers[w]) && AtPeace(s.workers[w], w, s.gate) && GateSound(s)
    ensures AtPeace(Next(s, w, m).workers[w], w, Next(s, w, m).gate)
  {
  }

  lemma OthersAtPeace(limit: int, s: State, w: nat, m: Move, i: nat)
    requires w < |s.workers| && Enabled(limit, s, w, m) && i < |s.workers| && i != w
    requires GateSound(s) && AtPeace(s.workers[w], w, s.gate) && Shaped(s.workers[i]) && AtPeace(s.workers[i], i, s.gate)
    ensures AtPeace(s.workers[i], i, Next(s, w, m).gate)
  {
  }

  lemma GateSoundStep(limit: int, s: State, w: nat, m: Move)
    requires w < |s.workers| && Enabled(limit, s, w, m) && GateSound(s) && AtPeace(s.workers[w], w, s.gate)
    ensures GateSound(Next(s, w, m))
  {
  }

  lemma WorkersSoundStep(limit: int, s: State, w: nat, m: Move)
    requires w < |s.workers| && Enabled(limit, s, w, m) && GateSound(s) && WorkersSound(s)
    ensures WorkersSound(Next(s, w, m))
  {
    var s' := Next(s, w, m);
    ShapedStep(limit, s, w, m);
    AtPeaceStep(limit, s, w, m);
    forall i | 0 <= i < |s'.workers|
      ensures Shaped(s'.workers[i]) && AtPeace(s'.workers[i], i, s'.gate) && (s'.workers[i].ending.Halted? ==> s'.stopped)
    {
      if i != w {
        OthersAtPeace(limit, s, w, m, i);
        assert s'.workers[i] == s.workers[i];
      }
    }
  }

  // ---------------------------------------------------------------- the books stay balanced

  /** What an emission, a change in the slots and a delivery make of the books. */
  ghost function CountsAfter(c: Counts, emitted: Option<AnimeOutcome>): Counts {
    if emitted.Some? then Add(c, CountsOf(emitted.value)) else c
  }

  ghost function BooksAfter(b: Books, emitted: Option<AnimeOutcome>, slots: int, sent: multiset<AnimeOutcome>): Books {
    Books(CountsAfter(b.counts, emitted), b.busy + slots, b.delivered + sent)
  }

  function SlotsTaken(m: Move): int {
    if m.Acquire? then 1 else if m.Release? then -1 else 0
  }

  ghost function Sent(x: Worker, m: Move): multiset<AnimeOutcome> {
    if m.Deliver? then multiset{x.outcome} else multiset{}
  }

  lemma AddSwaps(a: Counts, b: Counts, c: Counts)
    ensures Add(Add(a, c), b) == Add(Add(a, b), c) && Add(a, Add(b, c)) == Add(Add(a, b), c)
  {
  }

  lemma GainsSwap(a: Books, rest: Books, emitted: Option<AnimeOutcome>, slots: int, sent: multiset<AnimeOutcome>)
    ensures Plus(BooksAfter(a, emitted, slots, sent), rest) == BooksAfter(Plus(a, rest), emitted, slots, sent)
    ensures Plus(a, BooksAfter(rest, emitted, slots, sent)) == BooksAfter(Plus(a, rest), emitted, slots, sent)
  {
    if emitted.Some? {
      AddSwaps(a.counts, rest.counts, CountsOf(emitted.value));
    }
  }

  lemma {:induction false} TotalUpdates(xs: seq<Worker>, w: nat, x: Worker, emitted: Option<AnimeOutcome>, slots: int, sent: multiset<AnimeOutcome>)
    requires w < |xs| && Share(x) == BooksAfter(Share(xs[w]), emitted, slots, sent)
    ensures Total(xs[w := x]) == BooksAfter(Total(xs), emitted, slots, sent)
  {
    var ys := xs[w := x];
    TotalUnfolds(ys);
    TotalUnfolds(xs);
    GainsSwap(Share(xs[0]), Total(xs[1..]), emitted, slots, sent);
    if w == 0 {
      assert ys[1..] == xs[1..];
    } else {
      assert ys[1..] == xs[1..][w - 1 := x];
      TotalUpdates(xs[1..], w - 1, x, emitted, slots, sent);
    }
  }

  lemma AdvanceGains(outcome: AnimeOutcome, end: EpisodeEnd, episode: nat)
    ensures CountsOf(Advance(outcome, end, episode)) == Add(CountsOf(outcome), CountsOf(DeltaOf(outcome.anime, end)))
  {
  }

  /** Before it has announced anything a worker counts for nothing. */
  lemma FirstGains(o: AnimeOutcome, delta: AnimeOutcome, next: AnimeOutcome)
    requires o == NothingYet(o.anime) && CountsOf(next) == CountsOf(delta)
    ensures CountsOf(next) == Add(CountsOf(o), CountsOf(delta))
  {
  }

  lemma EarlyGains(anime: nat, why: EarlyEnd)
    ensures CountsOf(EarlyOutcome(anime, why)) == CountsOf(EarlyDelta(anime, why))
  {
  }

  lemma EpisodeGains(x: Worker, m: Move)
    requires EndsEpisode(m) && (x.pc.Working? || x.pc.Judged?) && x.outcome.anime == x.anime
    ensures CountsOf(NextOutcome(x, m)) == CountsAfter(CountsOf(x.outcome), Emitted(x, m))
  {
    AdvanceGains(x.outcome, EndOf(x, m), x.pc.current + 1);
  }

  lemma AnnouncedGains(x: Worker, m: Move)
    requires m.Conclude? || (m.Announce? && x.pc.Announcing?)
    requires x.outcome == NothingYet(x.anime)
    ensures CountsOf(NextOutcome(x, m)) == CountsAfter(CountsOf(x.outcome), Emitted(x, m))
  {
    if m.Conclude? {
      EarlyGains(x.anime, m.why);
    }
    FirstGains(x.outcome, Emitted(x, m).value, NextOutcome(x, m));
  }

  lemma NoGains(x: Worker, m: Move)
    requires !EndsEpisode(m) && !m.Conclude? && !m.Announce?
    ensures CountsOf(NextOutcome(x, m)) == CountsAfter(CountsOf(x.outcome), Emitted(x, m))
  {
  }

  lemma OutcomeGains(limit: int, s: State, w: nat, m: Move)
    requires w < |s.workers| && Enabled(limit, s, w, m) && Shaped(s.workers[w])
    ensures var x := s.workers[w]; CountsOf(NextOutcome(x, m)) == CountsAfter(CountsOf(x.outcome), Emitted(x, m))
  {
    var x := s.workers[w];
    if EndsEpisode(m) {
      EpisodeGains(x, m);
    } else if m.Conclude? || m.Announce? {
      AnnouncedGains(x, m);
    } else {
      NoGains(x, m);
    }
  }

  /** The moves that fill or free a slot, or deliver. */
  lemma PcGains(limit: int, s: State, w: nat, m: Move)
    requires w < |s.workers| && Enabled(limit, s, w, m)
    ensures var x, x' := s.workers[w], Next(s, w, m).workers[w];
            && (if x'.pc.Queued? || x'.pc.Done? then 0 else 1)
               == (if x.pc.Queued? || x.pc.Done? then 0 else 1) + SlotsTaken(m)
            && (x'.pc.Delivered? || x'.pc.Done? <==> x.pc.Delivered? || x.pc.Done? || m.Deliver?)
            && (m.Deliver? ==> !x.pc.Delivered? && !x.pc.Done?)
            && (x.pc.Delivered? || x.pc.Done? || m.Deliver? ==> x'.outcome == x.outcome)
            && x'.outcome == NextOutcome(x, m)
  {
  }

  lemma ShareMoves(limit: int, s: State, w: nat, m: Move)
    requires w < |s.workers| && Enabled(limit, s, w, m) && Shaped(s.workers[w])
    ensures Share(Next(s, w, m).workers[w]) == BooksAfter(Share(s.workers[w]), Emitted(s.workers[w], m), SlotsTaken(m), Sent(s.workers[w], m))
  {
    OutcomeGains(limit, s, w, m);
    PcGains(limit, s, w, m);
  }

  lemma ApplyGains(run: Tally, delta: AnimeOutcome)
    ensures RunCounts(ApplyProgressDelta(run, delta)) == Add(RunCounts(run), CountsOf(delta))
  {
  }

  lemma RunGains(s: State, w: nat, m: Move)
    requires w < |s.workers|
    ensures RunCounts(Next(s, w, m).run) == CountsAfter(RunCounts(s.run), Emitted(s.workers[w], m))
  {
    var x := s.workers[w];
    if Emitted(x, m).Some? {
      ApplyGains(s.run, Emitted(x, m).value);
    }
  }

  lemma HeldMoves(limit: int, s: State, w: nat, m: Move)
    requires w < |s.workers| && (m.Release? ==> s.slots > 0)
    ensures Held(Next(s, w, m)) == BooksAfter(Held(s), Emitted(s.workers[w], m), SlotsTaken(m), Sent(s.workers[w], m))
  {
    RunGains(s, w, m);
  }

  lemma {:induction false} BusyCounts(xs: seq<Worker>)
    ensures Total(xs).busy >= 0
  {
    if xs != [] {
      BusyCounts(xs[1..]);
      TotalUnfolds(xs);
    }
  }

  lemma {:induction false} BusyCounted(xs: seq<Worker>, w: nat)
    requires w < |xs| && !xs[w].pc.Queued? && !xs[w].pc.Done?
    ensures Total(xs).busy > 0
  {
    TotalUnfolds(xs);
    if w == 0 {
      BusyCounts(xs[1..]);
    } else {
      BusyCounted(xs[1..], w - 1);
    }
  }

  lemma BalancedStep(limit: int, s: State, w: nat, m: Move)
    requires w < |s.workers| && Enabled(limit, s, w, m) && WorkersSound(s) && Balanced(s)
    ensures Balanced(Next(s, w, m))
  {
    if m.Release? {
      BusyCounted(s.workers, w);
    }
    ShareMoves(limit, s, w, m);
    HeldMoves(limit, s, w, m);
    TotalUpdates(s.workers, w, Next(s, w, m).workers[w], Emitted(s.workers[w], m), SlotsTaken(m), Sent(s.workers[w], m));
  }

  lemma InvStep(limit: int, s: State, step: Step)
    requires Inv(limit, s) && Allowed(limit, s, step)
    ensures Inv(limit, Apply(s, step))
  {
    match step {
      case Stop =>
      case Act(w, m) =>
        BalancedStep(limit, s, w, m);
        WorkersSoundStep(limit, s, w, m);
        GateSoundStep(limit, s, w, m);
    }
  }

  /** Nothing on the books. */
  ghost predicate Blank(b: Books) {
    && b.counts.skipped == 0 && b.counts.checked == 0 && b.counts.upToDate == 0
    && b.counts.found == 0 && b.counts.downloaded == 0 && b.counts.failed == 0
    && b.counts.links == multiset{} && b.busy == 0 && b.delivered == multiset{}
  }

  lemma BlankAdds(a: Books, xs: seq<Worker>)
    requires Blank(a) && Blank(Total(xs))
    ensures Blank(SumShares(a, xs))
  {
  }

  lemma BlankUnique(a: Books, b: Books)
    requires Blank(a) && Blank(b)
    ensures a == b
  {
  }

  lemma NothingShared(x: Worker)
    requires x == InitWorker(x.anime)
    ensures Blank(Share(x))
  {
  }

  lemma {:induction false} InitBalanced(xs: seq<Worker>)
    requires forall i | 0 <= i < |xs| :: xs[i] == InitWorker(xs[i].anime)
    ensures Blank(Total(xs))
  {
    if xs != [] {
      NothingShared(xs[0]);
      InitBalanced(xs[1..]);
      TotalUnfolds(xs);
      BlankAdds(Share(xs[0]), xs[1..]);
    }
  }

  lemma NothingHeld(s: State)
    requires s.run == Tally(0, 0, 0, 0, 0, 0, []) && s.slots == 0 && s.channel == []
    ensures Blank(Held(s))
  {
  }

  lemma StartBalanced(s: State)
    requires s.run == Tally(0, 0, 0, 0, 0, 0, []) && s.slots == 0 && s.channel == []
    requires forall i | 0 <= i < |s.workers| :: s.workers[i] == InitWorker(s.workers[i].anime)
    ensures Balanced(s)
  {
    InitBalanced(s.workers);
    NothingHeld(s);
    BlankUnique(Total(s.workers), Held(s));
  }

  lemma StartSound(s: State)
    requires s.gate == Gate(Fresh, false, false, 0)
    requires forall i | 0 <= i < |s.workers| :: s.workers[i] == InitWorker(s.workers[i].anime)
    ensures WorkersSound(s) && GateSound(s)
  {
  }

  lemma InitInv(limit: int, animes: seq<nat>)
    ensures Inv(limit, Init(animes))
  {
    var s := Init(animes);
    StartBalanced(s);
    StartSound(s);
  }

  /** The invariant holds in every state every run reaches. */
  lemma {:induction false} RunInv(limit: int, s: State, steps: seq<Step>)
    requires Inv(limit, s) && ValidRun(limit, s, steps)
    ensures Inv(limit, After(limit, s, steps))
    decreases |steps|
  {
    if steps != [] {
      InvStep(limit, s, steps[0]);
      RunInv(limit, Apply(s, steps[0]), steps[1..]);
    }
  }
}
