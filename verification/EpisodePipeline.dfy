/** One anime of a download run (internal/download/service_pipeline.go): the fallback over hosters for one
    episode, the loop over missing episodes whose cursor is read back from the folder, and what the run's
    progress counters are told on the way. */
module EpisodePipeline {
  import opened Basics
  import opened DownloadPorts
  import opened HosterWatch

  // ---------------------------------------------------------------- hosters for one episode

  datatype FailureKind = NoFailure | HosterDown | SlowOrTimeout | Configuration

  datatype HosterLink = HosterLink(hoster: nat, links: seq<string>, siteHost: string)

  datatype AttemptName = SuccessRow | DeadRow | TimeoutRow | EnqueueErrorRow

  /** One row of the per-attempt ledger. */
  datatype Row = Row(episode: nat, hoster: nat, siteHost: string, index: nat, name: AttemptName, exit: Exit)

  /** Where the credited attempt is not known, there was none. */
  datatype Credit = NoAttempt | Attempt(hoster: nat, siteHost: string, index: nat)

  datatype EpisodeResult = EpisodeResult(
    succeeded: bool, failure: FailureKind, credit: Credit, exit: Exit, baseline: nat, observed: nat)

  function AttemptOutcomeName(kind: Kind): AttemptName {
    match kind
    case Success => SuccessRow
    case DeadHoster => DeadRow
    case Timeout => TimeoutRow
  }

  /** The exits of an attempt that landed the episode, that was given up as dead, and that ran out of time. */
  predicate LandingExit(exit: Exit) {
    exit == DiskAheadAtEntry || exit == GraceDiskConfirmed || exit == FSPollConfirmed
  }

  predicate DeadExit(exit: Exit) {
    || exit == PrecheckDead || exit == GraceClientAbsentFirst || exit == GraceQueryErrorFirst
    || exit == GraceClassifiedDead || exit == GraceNoSignalFirst
  }

  predicate SlowExit(exit: Exit) {
    || exit == CounterUnavailable || exit == FSPollDeadline || exit == GraceClientAbsentFallback
    || exit == GraceQueryErrorFallback || exit == GraceNoSignalFallback
  }

  /** The word of a ledger row is that of its exit. */
  predicate Worded(row: Row) {
    && (row.name.SuccessRow? <==> LandingExit(row.exit))
    && (row.name.DeadRow? <==> DeadExit(row.exit))
    && (row.name.TimeoutRow? <==> SlowExit(row.exit))
    && (row.name.EnqueueErrorRow? <==> row.exit == EnqueueError)
  }

  /** A row tells of the attempt on the hoster at its own index, and its name and its exit agree. */
  ghost predicate Tells(row: Row, ordered: seq<HosterLink>, i: nat, episode: nat)
    requires i < |ordered|
  {
    && row.episode == episode && row.index == i
    && row.hoster == ordered[i].hoster && row.siteHost == ordered[i].siteHost
    && if row.name.EnqueueErrorRow? then row.exit == EnqueueError
       else row.name == AttemptOutcomeName(KindOf(row.exit))
            && AttemptExit(row.exit)
  }

  lemma RowsAreWorded(row: Row, ordered: seq<HosterLink>, i: nat, episode: nat)
    requires i < |ordered| && Tells(row, ordered, i, episode)
    ensures Worded(row)
  {
  }

  /** The ledger of one episode: one row per attempt, for a prefix of the order, only the last a success. */
  ghost predicate Ledger(rows: seq<Row>, ordered: seq<HosterLink>, episode: nat) {
    && |rows| <= |ordered|
    && (forall i | 0 <= i < |rows| :: Tells(rows[i], ordered, i, episode))
    && (forall i | 0 <= i < |rows| - 1 :: !rows[i].name.SuccessRow?)
  }

  function CreditOf(rows: seq<Row>): Credit {
    if rows == [] then NoAttempt
    else var last := rows[|rows| - 1]; Attempt(last.hoster, last.siteHost, last.index)
  }

  function FailureOf(rows: seq<Row>): FailureKind {
    if rows != [] && rows[|rows| - 1].name.TimeoutRow? then SlowOrTimeout else HosterDown
  }

  predicate LastSucceeded(rows: seq<Row>) {
    rows != [] && rows[|rows| - 1].name.SuccessRow?
  }

  datatype ManualLink = ManualLink(anime: nat, episode: nat, links: seq<string>)

  /** One anime's part in a run; the same shape serves as a progress delta (service.go:195-229). */
  datatype AnimeOutcome = AnimeOutcome(
    anime: nat, skipped: bool, checked: bool, upToDate: bool, found: int, downloaded: nat, first: nat, last: nat,
    failedEpisodes: nat, manualLinks: seq<ManualLink>, failed: bool, failure: FailureKind)

  /** What a run writes down as it goes: the ledger of attempts and the progress deltas. */
  class Journal {
    var ledger: seq<Row>
    var deltas: seq<AnimeOutcome>

    constructor ()
      ensures ledger == [] && deltas == []
    {
      ledger, deltas := [], [];
    }

    method Record(row: Row)
      modifies `ledger
      ensures ledger == old(ledger) + [row]
    {
      ledger := ledger + [row];
    }

    method Emit(delta: AnimeOutcome)
      modifies `deltas
      ensures deltas == old(deltas) + [delta]
    {
      deltas := deltas + [delta];
    }
  }

  /** One hoster: enqueue, watch, and one ledger row whatever happens. */
  method TryHoster(world: World, journal: Journal, ordered: seq<HosterLink>, i: nat, baseline: nat, episode: nat)
    returns (row: Row)
    requires world.hasJD && i < |ordered|
    modifies world`instant, world`now, world`log, world`queries, world`removals, world`sleeps,
             journal`ledger
    ensures world.Onward() && journal.ledger == old(journal.ledger) + [row] && Tells(row, ordered, i, episode) && Worded(row)
    ensures row.name.EnqueueErrorRow? <==> !world.accepts(old(world.instant))
    ensures !row.name.EnqueueErrorRow? ==>
              && AttemptEnds(world, old(world.instant) + 1, baseline, i == 0, row.exit)
              && SoundAttempt(world.log, |old(world.log)| + 1, baseline, episode, i == 0, Outcome(KindOf(row.exit), row.exit))
    ensures world.accepts(old(world.instant)) && LosesPackages(world, old(world.instant) + 1, baseline, i == 0) ==> row.name.DeadRow?
    ensures world.queries <= old(world.queries) + 2
    ensures world.removals == old(world.removals)
              + if world.accepts(old(world.instant)) && LosesPackages(world, old(world.instant) + 1, baseline, i == 0) then 1 else 0
    ensures world.Landed() == old(world.Landed()) + if row.name.SuccessRow? then [episode] else []
    ensures row.name.SuccessRow? ==> world.Exceeds(baseline, old(world.instant), world.instant)
  {
    var accepted := world.Enqueue(ordered[i].hoster);
    if accepted {
      var outcome := AwaitHosterOutcome(world, baseline, episode, i == 0);
      row := Row(episode, ordered[i].hoster, ordered[i].siteHost, i, AttemptOutcomeName(outcome.kind), outcome.exit);
      RemovalsExactly(world, old(world.instant) + 1, baseline, i == 0, row.exit);
    } else {
      row := Row(episode, ordered[i].hoster, ordered[i].siteHost, i, EnqueueErrorRow, EnqueueError);
    }
    RowsAreWorded(row, ordered, i, episode);
    journal.Record(row);
  }

  /** What an episode's result says of its ledger: success, credit, failure and exit are the last row's, but for
      the three exits at which no last attempt ended the chain. */
  ghost predicate Reports(result: EpisodeResult, rows: seq<Row>, ordered: seq<HosterLink>, episode: nat, hasJD: bool) {
    && Ledger(rows, ordered, episode)
    && (result.succeeded <==> LastSucceeded(rows))
    && result.credit == CreditOf(rows)
    && (!result.succeeded ==> result.failure == FailureOf(rows))
    && (result.exit == JDUnavailable <==> !hasJD)
    && (result.exit == NoHosters <==> hasJD && ordered == [])
    && (result.exit == CancelledBeforeAttempt ==> !result.succeeded && |rows| < |ordered|)
    && (result.exit !in {JDUnavailable, NoHosters, CancelledBeforeAttempt} ==>
          |rows| > 0 && result.exit == rows[|rows| - 1].exit && (!result.succeeded ==> |rows| == |ordered|))
    && (!hasJD ==> rows == [] && result.baseline == 0 && result.observed == 0)
  }

  /** What an episode's result says, in the words of its ledger's exits: success, credit and failure are those of the
      last attempt, an episode nobody could be asked for counts as a hoster down. */
  ghost predicate Credits(result: EpisodeResult, rows: seq<Row>, ordered: seq<HosterLink>) {
    var n := |rows| - 1;
    && (forall i | 0 <= i < |rows| :: Worded(rows[i]))
    && |rows| <= |ordered|
    && (result.succeeded <==> rows != [] && LandingExit(rows[n].exit))
    && result.credit == (if rows == [] then NoAttempt else Attempt(ordered[n].hoster, ordered[n].siteHost, n))
    && (!result.succeeded ==>
          && (result.failure == SlowOrTimeout <==> rows != [] && SlowExit(rows[n].exit))
          && (result.failure == HosterDown <==> rows == [] || DeadExit(rows[n].exit) || rows[n].exit == EnqueueError))
  }

  lemma ReportsCredit(result: EpisodeResult, rows: seq<Row>, ordered: seq<HosterLink>, episode: nat, hasJD: bool)
    requires Reports(result, rows, ordered, episode, hasJD)
    ensures Credits(result, rows, ordered)
  {
    forall i | 0 <= i < |rows| ensures Worded(rows[i]) {
      RowsAreWorded(rows[i], ordered, i, episode);
    }
    if rows != [] {
      assert Tells(rows[|rows| - 1], ordered, |rows| - 1, episode) && Worded(rows[|rows| - 1]);
    }
  }

  /** What the loop remembers after some failed attempts. */
  ghost predicate Tried(rows: seq<Row>, ordered: seq<HosterLink>, episode: nat, failure: FailureKind, exit: Exit, credit: Credit) {
    && Ledger(rows, ordered, episode) && !LastSucceeded(rows)
    && credit == CreditOf(rows) && failure == FailureOf(rows)
    && exit == if rows == [] then Unset else rows[|rows| - 1].exit
  }

  lemma TriedAgain(rows: seq<Row>, ordered: seq<HosterLink>, episode: nat, failure: FailureKind, exit: Exit, credit: Credit, row: Row)
    requires Tried(rows, ordered, episode, failure, exit, credit)
    requires |rows| < |ordered| && Tells(row, ordered, |rows|, episode)
    ensures row.name.SuccessRow? ==> forall baseline, observed ::
              Reports(EpisodeResult(true, NoFailure, Attempt(row.hoster, row.siteHost, row.index), row.exit, baseline, observed),
                      rows + [row], ordered, episode, true)
    ensures !row.name.SuccessRow? ==>
              Tried(rows + [row], ordered, episode, if row.name.TimeoutRow? then SlowOrTimeout else HosterDown, row.exit,
                    Attempt(row.hoster, row.siteHost, row.index))
  {
    assert Ledger(rows + [row], ordered, episode);
  }

  lemma TriedAndStopped(rows: seq<Row>, ordered: seq<HosterLink>, episode: nat, failure: FailureKind, exit: Exit, credit: Credit,
                        baseline: nat, observed: nat)
    requires Tried(rows, ordered, episode, failure, exit, credit) && |rows| < |ordered|
    ensures Reports(EpisodeResult(false, failure, credit, CancelledBeforeAttempt, baseline, observed), rows, ordered, episode, true)
  {
  }

  lemma TriedAll(rows: seq<Row>, ordered: seq<HosterLink>, episode: nat, failure: FailureKind, exit: Exit, credit: Credit,
                 baseline: nat, observed: nat)
    requires Tried(rows, ordered, episode, failure, exit, credit) && |rows| == |ordered|
    ensures Reports(EpisodeResult(false, failure, credit, if exit == Unset then NoHosters else exit, baseline, observed),
                    rows, ordered, episode, true)
  {
    assert rows != [] ==> Tells(rows[|rows| - 1], ordered, |rows| - 1, episode);
  }

  /** One hoster of the loop, and what the loop remembers after it. */
  method TryNext(world: World, journal: Journal, ordered: seq<HosterLink>, i: nat, baseline: nat, episode: nat,
                 ghost rows: seq<Row>, ghost failure: FailureKind, ghost exit: Exit, ghost credit: Credit)
    returns (row: Row)
    requires world.hasJD && i < |ordered| && |rows| == i && Tried(rows, ordered, episode, failure, exit, credit)
    modifies world`instant, world`now, world`log, world`queries, world`removals, world`sleeps,
             journal`ledger
    ensures world.Onward() && journal.ledger == old(journal.ledger) + [row]
    ensures row.name.SuccessRow? ==> forall observed ::
              Reports(EpisodeResult(true, NoFailure, Attempt(ordered[i].hoster, ordered[i].siteHost, i), row.exit, baseline, observed),
                      rows + [row], ordered, episode, true)
    ensures !row.name.SuccessRow? ==>
              Tried(rows + [row], ordered, episode, if row.name.TimeoutRow? then SlowOrTimeout else HosterDown, row.exit,
                    Attempt(ordered[i].hoster, ordered[i].siteHost, i))
    ensures world.queries <= old(world.queries) + 2 && world.removals <= old(world.removals) + 1
    ensures world.Landed() == old(world.Landed()) + if row.name.SuccessRow? then [episode] else []
    ensures row.name.SuccessRow? ==> world.Exceeds(baseline, old(world.instant), world.instant)
  {
    row := TryHoster(world, journal, ordered, i, baseline, episode);
    TriedAgain(rows, ordered, episode, failure, exit, credit, row);
  }

  /** The loop over the hosters: it ends with a success, with a stop, or with the order used up. */
  method TryInOrder(world: World, journal: Journal, ordered: seq<HosterLink>, baseline: nat, episode: nat)
    returns (success: bool, stopped: bool, failure: FailureKind, exit: Exit, credit: Credit, ghost rows: seq<Row>)
    requires world.hasJD
    modifies world`instant, world`now, world`log, world`queries, world`removals, world`sleeps,
             journal`ledger
    ensures world.Onward() && journal.ledger == old(journal.ledger) + rows
    ensures success ==> forall observed ::
              Reports(EpisodeResult(true, NoFailure, credit, exit, baseline, observed), rows, ordered, episode, true)
    ensures !success ==> Tried(rows, ordered, episode, failure, exit, credit) && if stopped then |rows| < |ordered| else |rows| == |ordered|
    ensures stopped ==> exists t | old(world.instant) <= t < world.instant :: world.stopped(t)
    ensures world.queries <= old(world.queries) + 2 * |rows| && world.removals <= old(world.removals) + |rows|
    ensures world.Landed() == old(world.Landed()) + if success then [episode] else []
    ensures success ==> world.Exceeds(baseline, old(world.instant), world.instant)
  {
    rows, failure, exit, credit := [], HosterDown, Unset, NoAttempt;
    for i := 0 to |ordered|
      invariant world.Onward() && journal.ledger == old(journal.ledger) + rows && |rows| == i
      invariant Tried(rows, ordered, episode, failure, exit, credit)
      invariant world.queries <= old(world.queries) + 2 * i && world.removals <= old(world.removals) + i
      invariant world.Landed() == old(world.Landed())
    {
      stopped := world.IsStopped();
      if stopped {
        assert world.stopped(world.instant - 1);
        return false, true, failure, exit, credit, rows;
      }
      var row := TryNext(world, journal, ordered, i, baseline, episode, rows, failure, exit, credit);
      rows, credit, exit := rows + [row], Attempt(ordered[i].hoster, ordered[i].siteHost, i), row.exit;
      if row.name.SuccessRow? {
        return true, false, NoFailure, exit, credit, rows;
      }
      failure := if row.name.TimeoutRow? then SlowOrTimeout else HosterDown;
    }
    return false, false, failure, exit, credit, rows;
  }

  /** The hosters in order until one lands the episode, the run is stopped or the order is used up. `rows` is what
      the ledger gained. */
  method EnqueueWithFallback(world: World, journal: Journal, ordered: seq<HosterLink>, episode: nat)
    returns (result: EpisodeResult, ghost rows: seq<Row>)
    modifies world`instant, world`now, world`log, world`queries, world`removals, world`sleeps,
             journal`ledger
    ensures world.Onward() && journal.ledger == old(journal.ledger) + rows
    ensures Reports(result, rows, ordered, episode, world.hasJD) && Credits(result, rows, ordered)
    ensures result.exit == CancelledBeforeAttempt ==> exists t | old(world.instant) <= t < world.instant :: world.stopped(t)
    ensures world.hasJD ==>
              && world.instant > old(world.instant)
              && result.baseline == world.Files(old(world.instant)) && result.observed == world.Files(world.instant - 1)
    ensures world.queries <= old(world.queries) + 2 * |rows| && world.removals <= old(world.removals) + |rows|
    ensures world.Landed() == old(world.Landed()) + if result.succeeded then [episode] else []
    ensures result.succeeded ==> world.Exceeds(world.Files(old(world.instant)), old(world.instant), world.instant)
  {
    if !world.hasJD {
      return EpisodeResult(false, HosterDown, NoAttempt, JDUnavailable, 0, 0), [];
    }
    var baseline := world.Count();
    var success, stopped, failure, exit, credit;
    success, stopped, failure, exit, credit, rows := TryInOrder(world, journal, ordered, baseline, episode);
    var observed := world.Count();
    if success {
      result := EpisodeResult(true, NoFailure, credit, exit, baseline, observed);
    } else if stopped {
      TriedAndStopped(rows, ordered, episode, failure, exit, credit, baseline, observed);
      result := EpisodeResult(false, failure, credit, CancelledBeforeAttempt, baseline, observed);
    } else {
      TriedAll(rows, ordered, episode, failure, exit, credit, baseline, observed);
      result := EpisodeResult(false, failure, credit, if exit == Unset then NoHosters else exit, baseline, observed);
    }
    ReportsCredit(result, rows, ordered, episode, true);
  }

  // ---------------------------------------------------------------- counters

  /** The run's counters (service.go:499-513). */
  datatype Tally = Tally(
    skipped: nat, checked: nat, upToDate: nat, found: int, downloaded: nat, failed: nat, links: seq<ManualLink>)

  function One(b: bool): nat {
    if b then 1 else 0
  }

  function ApplyProgressDelta(run: Tally, delta: AnimeOutcome): Tally {
    Tally(run.skipped + One(delta.skipped), run.checked + One(delta.checked), run.upToDate + One(delta.upToDate),
          run.found + delta.found, run.downloaded + delta.downloaded, run.failed + delta.failedEpisodes,
          run.links + delta.manualLinks)
  }

  /** What a list of deltas makes of the counters `run`. */
  function ApplyAll(run: Tally, deltas: seq<AnimeOutcome>): Tally {
    if deltas == [] then run else ApplyProgressDelta(ApplyAll(run, deltas[..|deltas| - 1]), deltas[|deltas| - 1])
  }

  /** The deltas say of an anime exactly what its outcome says, whatever the counters held before. */
  ghost predicate AddUpTo(deltas: seq<AnimeOutcome>, outcome: AnimeOutcome) {
    forall run :: ApplyAll(run, deltas) == ApplyProgressDelta(run, outcome)
  }

  lemma ApplySnoc(run: Tally, deltas: seq<AnimeOutcome>, delta: AnimeOutcome)
    ensures ApplyAll(run, deltas + [delta]) == ApplyProgressDelta(ApplyAll(run, deltas), delta)
  {
    assert (deltas + [delta])[..|deltas|] == deltas;
  }

  lemma OneAddsUp(deltas: seq<AnimeOutcome>, delta: AnimeOutcome)
    requires deltas == [delta]
    ensures AddUpTo(deltas, delta)
  {
    assert deltas[..0] == [];
    forall run ensures ApplyAll(run, deltas) == ApplyProgressDelta(run, delta) {
      assert ApplyAll(run, deltas[..0]) == run;
    }
  }

  /** Only what the counters read matters. */
  lemma SameCountsAddUp(deltas: seq<AnimeOutcome>, a: AnimeOutcome, b: AnimeOutcome)
    requires AddUpTo(deltas, a)
    requires a.skipped == b.skipped && a.checked == b.checked && a.upToDate == b.upToDate && a.found == b.found
    requires a.downloaded == b.downloaded && a.failedEpisodes == b.failedEpisodes && a.manualLinks == b.manualLinks
    ensures AddUpTo(deltas, b)
  {
    forall run ensures ApplyAll(run, deltas) == ApplyProgressDelta(run, b) {
      assert ApplyAll(run, deltas) == ApplyProgressDelta(run, a);
    }
  }

  /** The outcome of an anime nothing has happened to yet, and the delta announcing one whose episodes are missing.
      Deltas name their anime here; the counters do not read it. */
  function NothingYet(anime: nat): AnimeOutcome {
    AnimeOutcome(anime, false, false, false, 0, 0, 0, 0, 0, [], false, NoFailure)
  }

  function Announcement(anime: nat, found: int): AnimeOutcome {
    AnimeOutcome(anime, false, true, false, found, 0, 0, 0, 0, [], false, NoFailure)
  }

  // ---------------------------------------------------------------- one episode

  /** The site's answers, by the instant they are asked at, and the order the hosters are tried in. */
  datatype Source = Source(
    pageFound: nat -> bool, extract: nat -> Option<seq<string>>, order: seq<string> -> seq<HosterLink>)

  ghost predicate Ascending(s: seq<nat>) {
    forall i, j | 0 <= i < j < |s| :: s[i] < s[j]
  }

  /** The outcome names exactly the episodes in `landed`. */
  ghost predicate Brackets(outcome: AnimeOutcome, landed: seq<nat>) {
    && outcome.downloaded == |landed| && Ascending(landed)
    && if landed == [] then outcome.first == 0 && outcome.last == 0
       else outcome.first == landed[0] > 0 && outcome.last == landed[|landed| - 1]
  }

  /** The three ways an episode may end; only the first is not the end of the anime. */
  datatype EpisodeEnd = Landed(cursor: nat) | Offered(link: ManualLink) | Failing(failure: FailureKind)

  /** What an episode's end does to the outcome, and the delta that reports it. */
  function Advance(outcome: AnimeOutcome, end: EpisodeEnd, episode: nat): AnimeOutcome {
    match end
    case Landed(_) =>
      outcome.(downloaded := outcome.downloaded + 1, first := if outcome.first == 0 then episode else outcome.first,
               last := episode)
    case Offered(link) => outcome.(manualLinks := outcome.manualLinks + [link])
    case Failing(failure) =>
      outcome.(failedEpisodes := outcome.failedEpisodes + 1, failed := true, failure := failure)
  }

  function DeltaOf(anime: nat, end: EpisodeEnd): AnimeOutcome {
    AnimeOutcome(anime, false, false, false, 0, One(end.Landed?), 0, 0, One(end.Failing?),
                 if end.Offered? then [end.link] else [], false, NoFailure)
  }

  /** The site has a page for the episode at `t`, and then some link on it. */
  predicate Extracts(source: Source, t: nat) {
    source.pageFound(t) && source.extract(t + 1).Some? && source.extract(t + 1).value != []
  }

  /** What the hosters were tried for is in ledger[from..], and the end is what its last row says. */
  ghost predicate Concludes(end: EpisodeEnd, ledger: seq<Row>, from: nat, ordered: seq<HosterLink>, episode: nat) {
    && from <= |ledger| && Ledger(ledger[from..], ordered, episode)
    && (end.Landed? <==> LastSucceeded(ledger[from..]))
    && (!end.Landed? ==> end == Failing(FailureOf(ledger[from..])))
  }

  /** Resolve the page, extract the links, and offer them or try the hosters. Only an episode that landed moves the
      cursor, which is then read back from the folder. */
  method ProcessAvailableEpisode(world: World, journal: Journal, source: Source, offline: bool, current: nat, outcome: AnimeOutcome)
    returns (end: EpisodeEnd, next: AnimeOutcome)
    requires world.FolderNeverShrinks() && current <= world.Files(world.instant)
    modifies world`instant, world`now, world`log, world`queries, world`removals, world`sleeps,
             journal`ledger, journal`deltas
    ensures world.Onward()
    ensures next == Advance(outcome, end, current + 1) && journal.deltas == old(journal.deltas) + [DeltaOf(outcome.anime, end)]
    ensures !Extracts(source, old(world.instant)) ==> end == Failing(HosterDown)
    ensures Extracts(source, old(world.instant)) && offline ==>
              end == Offered(ManualLink(outcome.anime, current + 1, source.extract(old(world.instant) + 1).value))
    ensures Extracts(source, old(world.instant)) && !offline ==>
              Concludes(end, journal.ledger, |old(journal.ledger)|, source.order(source.extract(old(world.instant) + 1).value), current + 1)
    ensures !Extracts(source, old(world.instant)) || offline ==> journal.ledger == old(journal.ledger)
    ensures end.Landed? ==> current < end.cursor <= world.Files(world.instant)
    ensures world.Landed() == old(world.Landed()) + if end.Landed? then [current + 1] else []
  {
    var nextEpisode := current + 1;
    var pageFound := source.pageFound(world.instant);
    world.Visit();
    if !pageFound {
      end := Failing(HosterDown);
    } else {
      var links := source.extract(world.instant);
      world.Visit();
      if links.None? || links.value == [] {
        end := Failing(HosterDown);
      } else if offline {
        end := Offered(ManualLink(outcome.anime, nextEpisode, links.value));
      } else {
        end := DownloadEpisode(world, journal, source.order(links.value), current);
      }
    }
    next := Advance(outcome, end, nextEpisode);
    journal.Emit(DeltaOf(outcome.anime, end));
  }

  /** The hosters' part of an episode. */
  method DownloadEpisode(world: World, journal: Journal, ordered: seq<HosterLink>, current: nat) returns (end: EpisodeEnd)
    requires world.FolderNeverShrinks() && current <= world.Files(world.instant)
    modifies world`instant, world`now, world`log, world`queries, world`removals, world`sleeps,
             journal`ledger
    ensures world.Onward() && Concludes(end, journal.ledger, |old(journal.ledger)|, ordered, current + 1)
    ensures end.Landed? ==> current < end.cursor <= world.Files(world.instant)
    ensures world.Landed() == old(world.Landed()) + if end.Landed? then [current + 1] else []
  {
    var result, rows := EnqueueWithFallback(world, journal, ordered, current + 1);
    assert journal.ledger[|old(journal.ledger)|..] == rows;
    if !result.succeeded {
      return Failing(result.failure);
    }
    var cursor := world.Count();
    end := Landed(cursor);
  }

  // ---------------------------------------------------------------- the story of an anime

  /** How the next missing episode may end, with the cursor at `cursor`. */
  predicate Fits(end: EpisodeEnd, anime: nat, cursor: nat, latest: nat, offline: bool) {
    && cursor < latest
    && match end
       case Landed(c) => !offline && c > cursor
       case Offered(link) => offline && link.anime == anime && link.episode == cursor + 1 && link.links != []
       case Failing(failure) => offline ==> failure == HosterDown
  }

  /** Where the cursor stands after some episodes. */
  function CursorAfter(onDisk: nat, ends: seq<EpisodeEnd>): nat {
    if ends == [] then onDisk
    else
      var last := ends[|ends| - 1];
      if last.Landed? then last.cursor else CursorAfter(onDisk, ends[..|ends| - 1])
  }

  predicate LastLanded(ends: seq<EpisodeEnd>) {
    ends == [] || ends[|ends| - 1].Landed?
  }

  /** One missing episode after another, each tried only once the one before has landed. */
  predicate Story(ends: seq<EpisodeEnd>, anime: nat, onDisk: nat, latest: nat, offline: bool) {
    ends == [] ||
    var init := ends[..|ends| - 1];
    && Story(init, anime, onDisk, latest, offline) && LastLanded(init)
    && Fits(ends[|ends| - 1], anime, CursorAfter(onDisk, init), latest, offline)
  }

  /** The outcome such a story makes. */
  function Played(anime: nat, onDisk: nat, latest: nat, ends: seq<EpisodeEnd>): AnimeOutcome {
    if ends == [] then Announcement(anime, latest - onDisk)
    else
      var init := ends[..|ends| - 1];
      Advance(Played(anime, onDisk, latest, init), ends[|ends| - 1], CursorAfter(onDisk, init) + 1)
  }

  /** The outcome is the one the story makes. */
  predicate Recounts(ends: seq<EpisodeEnd>, outcome: AnimeOutcome, anime: nat, onDisk: nat, latest: nat, offline: bool) {
    onDisk <= latest && Story(ends, anime, onDisk, latest, offline) && outcome == Played(anime, onDisk, latest, ends)
  }

  /** The same while every episode so far has landed. */
  predicate SoFar(ends: seq<EpisodeEnd>, outcome: AnimeOutcome, onDisk: nat, latest: nat, offline: bool, current: nat) {
    Recounts(ends, outcome, outcome.anime, onDisk, latest, offline) && LastLanded(ends) && current == CursorAfter(onDisk, ends)
  }

  /** The episodes a story lands: each the one after the cursor it is tried at. */
  function LandedIn(onDisk: nat, ends: seq<EpisodeEnd>): seq<nat> {
    if ends == [] then []
    else
      var init := ends[..|ends| - 1];
      LandedIn(onDisk, init) + if ends[|ends| - 1].Landed? then [CursorAfter(onDisk, init) + 1] else []
  }

  lemma LandedOneMore(onDisk: nat, ends: seq<EpisodeEnd>, end: EpisodeEnd)
    ensures LandedIn(onDisk, ends + [end]) == LandedIn(onDisk, ends) + if end.Landed? then [CursorAfter(onDisk, ends) + 1] else []
  {
    assert (ends + [end])[..|ends|] == ends;
  }

  /** What such an outcome tells: the episodes found missing, the ones that landed, and the one, if any, that ended the
      story by failing or by being offered. */
  ghost predicate ToldBy(o: AnimeOutcome, anime: nat, found: int, landed: seq<nat>, ends: seq<EpisodeEnd>) {
    && o.anime == anime && o.found == found && o.checked && !o.skipped && !o.upToDate
    && o.downloaded == |landed|
    && o.first == (if landed == [] then 0 else landed[0]) && o.last == (if landed == [] then 0 else landed[|landed| - 1])
    && (if LastLanded(ends) then !o.failed && o.failedEpisodes == 0 && o.manualLinks == [] && o.failure == NoFailure
        else
          match ends[|ends| - 1]
          case Failing(failure) => o.failed && o.failedEpisodes == 1 && o.manualLinks == [] && o.failure == failure
          case Offered(link) => !o.failed && o.failedEpisodes == 0 && o.manualLinks == [link]
          case Landed(_) => false)
  }

  lemma {:induction false} PlayedTells(anime: nat, onDisk: nat, latest: nat, ends: seq<EpisodeEnd>, offline: bool)
    requires Story(ends, anime, onDisk, latest, offline) && onDisk <= latest
    ensures ToldBy(Played(anime, onDisk, latest, ends), anime, latest - onDisk, LandedIn(onDisk, ends), ends)
    ensures |ends| == |LandedIn(onDisk, ends)| + One(!LastLanded(ends))
    ensures forall i | 0 <= i < |LandedIn(onDisk, ends)| :: LandedIn(onDisk, ends)[i] > 0
  {
    if ends != [] {
      PlayedTells(anime, onDisk, latest, ends[..|ends| - 1], offline);
    }
  }

  lemma StoryGoesOn(ends: seq<EpisodeEnd>, end: EpisodeEnd, anime: nat, onDisk: nat, latest: nat, offline: bool)
    requires Story(ends, anime, onDisk, latest, offline) && LastLanded(ends)
    requires Fits(end, anime, CursorAfter(onDisk, ends), latest, offline)
    ensures Story(ends + [end], anime, onDisk, latest, offline)
    ensures Played(anime, onDisk, latest, ends + [end])
            == Advance(Played(anime, onDisk, latest, ends), end, CursorAfter(onDisk, ends) + 1)
    ensures end.Landed? ==> CursorAfter(onDisk, ends + [end]) == end.cursor
  {
    assert (ends + [end])[..|ends|] == ends;
  }

  // ---------------------------------------------------------------- one anime

  /** The outcome counts what was emitted, and names the episodes that landed, all in (onDisk, bound]. */
  ghost predicate Progressing(outcome: AnimeOutcome, landed: seq<nat>, emitted: seq<AnimeOutcome>, onDisk: nat, bound: nat) {
    && Brackets(outcome, landed)
    && (landed != [] ==> onDisk < landed[0] && landed[|landed| - 1] <= bound)
    && AddUpTo(emitted, outcome)
  }

  lemma AdvanceApplies(run: Tally, outcome: AnimeOutcome, end: EpisodeEnd, episode: nat)
    ensures ApplyProgressDelta(ApplyProgressDelta(run, outcome), DeltaOf(outcome.anime, end))
            == ApplyProgressDelta(run, Advance(outcome, end, episode))
  {
  }

  lemma AdvanceCounts(outcome: AnimeOutcome, emitted: seq<AnimeOutcome>, end: EpisodeEnd, episode: nat)
    requires AddUpTo(emitted, outcome)
    ensures AddUpTo(emitted + [DeltaOf(outcome.anime, end)], Advance(outcome, end, episode))
  {
    forall run ensures ApplyAll(run, emitted + [DeltaOf(outcome.anime, end)]) == ApplyProgressDelta(run, Advance(outcome, end, episode)) {
      ApplySnoc(run, emitted, DeltaOf(outcome.anime, end));
      AdvanceApplies(run, outcome, end, episode);
    }
  }

  lemma LandingBrackets(outcome: AnimeOutcome, landed: seq<nat>, end: EpisodeEnd, episode: nat)
    requires Brackets(outcome, landed) && end.Landed? && episode > 0
    requires landed != [] ==> landed[|landed| - 1] < episode
    ensures Brackets(Advance(outcome, end, episode), landed + [episode])
  {
  }

  lemma LandingProgresses(outcome: AnimeOutcome, landed: seq<nat>, emitted: seq<AnimeOutcome>, onDisk: nat, bound: nat,
                          end: EpisodeEnd, current: nat)
    requires Progressing(outcome, landed, emitted, onDisk, bound) && onDisk <= bound <= current && end.Landed?
    ensures Progressing(Advance(outcome, end, current + 1), landed + [current + 1], emitted + [DeltaOf(outcome.anime, end)], onDisk, current + 1)
  {
    AdvanceCounts(outcome, emitted, end, current + 1);
    LandingBrackets(outcome, landed, end, current + 1);
  }

  lemma EndingProgresses(outcome: AnimeOutcome, landed: seq<nat>, emitted: seq<AnimeOutcome>, onDisk: nat, bound: nat,
                         end: EpisodeEnd, current: nat)
    requires Progressing(outcome, landed, emitted, onDisk, bound) && !end.Landed?
    ensures Progressing(Advance(outcome, end, current + 1), landed, emitted + [DeltaOf(outcome.anime, end)], onDisk, bound)
  {
    AdvanceCounts(outcome, emitted, end, current + 1);
  }

  /** At most one episode failed or was offered, and nothing is counted beyond what was found missing. */
  ghost predicate SoundEpisodes(outcome: AnimeOutcome, offline: bool, onDisk: int) {
    && outcome.checked && !outcome.skipped && !outcome.upToDate
    && outcome.failedEpisodes + |outcome.manualLinks| <= 1
    && (outcome.failed <==> outcome.failedEpisodes == 1)
    && outcome.downloaded + outcome.failedEpisodes + |outcome.manualLinks| <= outcome.found
    && (offline ==> outcome.downloaded == 0)
    && (!offline ==> outcome.manualLinks == [])
    && (outcome.manualLinks != [] ==> outcome.manualLinks[0].episode == onDisk + 1)
  }

  /** What is told of an anime's episodes: a sound outcome, counted by the deltas, naming what landed. */
  ghost predicate Told(outcome: AnimeOutcome, landed: seq<nat>, emitted: seq<AnimeOutcome>,
                       anime: nat, onDisk: nat, latest: nat, offline: bool) {
    && outcome.anime == anime && outcome.found == latest - onDisk && SoundEpisodes(outcome, offline, onDisk)
    && Progressing(outcome, landed, emitted, onDisk, latest)
  }

  /** The same while every episode so far has landed, none beyond `bound`. */
  ghost predicate Underway(outcome: AnimeOutcome, landed: seq<nat>, emitted: seq<AnimeOutcome>,
                           anime: nat, onDisk: nat, bound: nat, latest: nat, offline: bool) {
    && outcome == AnimeOutcome(anime, false, true, false, latest - onDisk, outcome.downloaded, outcome.first, outcome.last,
                               0, [], false, NoFailure)
    && Progressing(outcome, landed, emitted, onDisk, bound)
    && onDisk <= bound <= latest && outcome.downloaded <= bound - onDisk
    && (offline ==> outcome.downloaded == 0)
  }

  lemma UnderwayStarts(anime: nat, onDisk: nat, latest: nat, offline: bool)
    requires onDisk < latest
    ensures Underway(Announcement(anime, latest - onDisk), [], [Announcement(anime, latest - onDisk)], anime, onDisk, onDisk, latest, offline)
  {
    OneAddsUp([Announcement(anime, latest - onDisk)], Announcement(anime, latest - onDisk));
  }

  lemma UnderwayLands(outcome: AnimeOutcome, landed: seq<nat>, emitted: seq<AnimeOutcome>, anime: nat, onDisk: nat,
                      bound: nat, latest: nat, offline: bool, end: EpisodeEnd, current: nat)
    requires Underway(outcome, landed, emitted, anime, onDisk, bound, latest, offline)
    requires end.Landed? && !offline && bound <= current < latest
    ensures Underway(Advance(outcome, end, current + 1), landed + [current + 1], emitted + [DeltaOf(outcome.anime, end)],
                     anime, onDisk, current + 1, latest, offline)
  {
    LandingProgresses(outcome, landed, emitted, onDisk, bound, end, current);
  }

  lemma UnderwayEnds(outcome: AnimeOutcome, landed: seq<nat>, emitted: seq<AnimeOutcome>, anime: nat, onDisk: nat,
                     bound: nat, latest: nat, offline: bool, end: EpisodeEnd, current: nat)
    requires Underway(outcome, landed, emitted, anime, onDisk, bound, latest, offline)
    requires !end.Landed? && bound <= current < latest
    requires end.Offered? ==> offline && current == onDisk && end.link.episode == current + 1
    ensures Told(Advance(outcome, end, current + 1), landed, emitted + [DeltaOf(outcome.anime, end)], anime, onDisk, latest, offline)
    ensures Advance(outcome, end, current + 1).failed || Advance(outcome, end, current + 1).manualLinks != []
  {
    EndingProgresses(outcome, landed, emitted, onDisk, bound, end, current);
  }

  lemma UnderwayStops(outcome: AnimeOutcome, landed: seq<nat>, emitted: seq<AnimeOutcome>, anime: nat, onDisk: nat,
                      bound: nat, latest: nat, offline: bool)
    requires Underway(outcome, landed, emitted, anime, onDisk, bound, latest, offline)
    ensures Told(outcome, landed, emitted, anime, onDisk, latest, offline)
  {
  }

  /** The loop over missing episodes at its head: every episode so far has landed. */
  ghost predicate Going(ends: seq<EpisodeEnd>, outcome: AnimeOutcome, landed: seq<nat>, emitted: seq<AnimeOutcome>, anime: nat,
                        onDisk: nat, bound: nat, current: nat, latest: nat, offline: bool) {
    && Underway(outcome, landed, emitted, anime, onDisk, bound, latest, offline)
    && SoFar(ends, outcome, onDisk, latest, offline, current) && landed == LandedIn(onDisk, ends)
    && bound <= current && (offline ==> current == onDisk)
  }

  /** The loop over missing episodes behind it. */
  ghost predicate Gone(ends: seq<EpisodeEnd>, outcome: AnimeOutcome, landed: seq<nat>, emitted: seq<AnimeOutcome>, anime: nat,
                       onDisk: nat, latest: nat, offline: bool) {
    && Told(outcome, landed, emitted, anime, onDisk, latest, offline)
    && Recounts(ends, outcome, anime, onDisk, latest, offline) && landed == LandedIn(onDisk, ends)
  }

  lemma GoingStarts(anime: nat, onDisk: nat, latest: nat, offline: bool)
    requires onDisk < latest
    ensures Going([], Announcement(anime, latest - onDisk), [], [Announcement(anime, latest - onDisk)], anime,
                  onDisk, onDisk, onDisk, latest, offline)
  {
    UnderwayStarts(anime, onDisk, latest, offline);
  }

  lemma GoingStops(ends: seq<EpisodeEnd>, outcome: AnimeOutcome, landed: seq<nat>, emitted: seq<AnimeOutcome>, anime: nat,
                   onDisk: nat, bound: nat, current: nat, latest: nat, offline: bool)
    requires Going(ends, outcome, landed, emitted, anime, onDisk, bound, current, latest, offline)
    ensures Gone(ends, outcome, landed, emitted, anime, onDisk, latest, offline)
  {
    UnderwayStops(outcome, landed, emitted, anime, onDisk, bound, latest, offline);
  }

  lemma GoesOn(ends: seq<EpisodeEnd>, outcome: AnimeOutcome, landed: seq<nat>, emitted: seq<AnimeOutcome>, anime: nat,
               onDisk: nat, bound: nat, current: nat, latest: nat, offline: bool, end: EpisodeEnd)
    requires Going(ends, outcome, landed, emitted, anime, onDisk, bound, current, latest, offline)
    requires current < latest && end.Landed? && !offline && end.cursor > current
    ensures Going(ends + [end], Advance(outcome, end, current + 1), landed + [current + 1], emitted + [DeltaOf(anime, end)], anime,
                  onDisk, current + 1, end.cursor, latest, offline)
  {
    StoryGoesOn(ends, end, anime, onDisk, latest, offline);
    LandedOneMore(onDisk, ends, end);
    UnderwayLands(outcome, landed, emitted, anime, onDisk, bound, latest, offline, end, current);
  }

  lemma Ends(ends: seq<EpisodeEnd>, outcome: AnimeOutcome, landed: seq<nat>, emitted: seq<AnimeOutcome>, anime: nat,
             onDisk: nat, bound: nat, current: nat, latest: nat, offline: bool, end: EpisodeEnd)
    requires Going(ends, outcome, landed, emitted, anime, onDisk, bound, current, latest, offline)
    requires !end.Landed? && Fits(end, anime, current, latest, offline)
    ensures Gone(ends + [end], Advance(outcome, end, current + 1), landed, emitted + [DeltaOf(anime, end)], anime, onDisk, latest, offline)
    ensures Advance(outcome, end, current + 1).failed || Advance(outcome, end, current + 1).manualLinks != []
  {
    StoryGoesOn(ends, end, anime, onDisk, latest, offline);
    LandedOneMore(onDisk, ends, end);
    UnderwayEnds(outcome, landed, emitted, anime, onDisk, bound, latest, offline, end, current);
  }

  /** One round of the loop over missing episodes. */
  method NextEpisode(world: World, journal: Journal, source: Source, offline: bool, anime: nat, current: nat, outcome: AnimeOutcome,
                     ghost landed: seq<nat>, ghost emitted: seq<AnimeOutcome>, ghost ends: seq<EpisodeEnd>,
                     ghost onDisk: nat, ghost bound: nat, ghost latest: nat)
    returns (end: EpisodeEnd, next: AnimeOutcome)
    requires world.FolderNeverShrinks() && current < latest && current <= world.Files(world.instant)
    requires Going(ends, outcome, landed, emitted, anime, onDisk, bound, current, latest, offline)
    modifies world`instant, world`now, world`log, world`queries, world`removals, world`sleeps,
             journal`ledger, journal`deltas
    ensures world.Onward() && journal.deltas == old(journal.deltas) + [DeltaOf(anime, end)]
    ensures end.Landed? ==>
              && current < end.cursor <= world.Files(world.instant)
              && world.Landed() == old(world.Landed()) + [current + 1]
              && Going(ends + [end], next, landed + [current + 1], emitted + [DeltaOf(anime, end)], anime, onDisk, current + 1,
                       end.cursor, latest, offline)
    ensures !end.Landed? ==>
              && (next.failed || next.manualLinks != []) && world.Landed() == old(world.Landed())
              && Gone(ends + [end], next, landed, emitted + [DeltaOf(anime, end)], anime, onDisk, latest, offline)
  {
    end, next := ProcessAvailableEpisode(world, journal, source, offline, current, outcome);
    if end.Landed? {
      GoesOn(ends, outcome, landed, emitted, anime, onDisk, bound, current, latest, offline, end);
    } else {
      Ends(ends, outcome, landed, emitted, anime, onDisk, bound, current, latest, offline, end);
    }
  }

  /** The loop ends, whatever the site, the hosters and JDownloader do, as long as nobody deletes episodes. Unless an
      episode failed or was offered, or the run was stopped, the folder has caught up with the listing. */
  method DownloadAvailableEpisodes(world: World, journal: Journal, source: Source, offline: bool, anime: nat, onDisk: nat, latest: nat)
    returns (outcome: AnimeOutcome, ghost landed: seq<nat>, ghost emitted: seq<AnimeOutcome>, ghost ends: seq<EpisodeEnd>)
    requires world.FolderNeverShrinks() && onDisk <= world.Files(world.instant) && onDisk < latest
    modifies world`instant, world`now, world`log, world`queries, world`removals, world`sleeps,
             journal`ledger, journal`deltas
    ensures world.Onward() && journal.deltas == old(journal.deltas) + emitted
    ensures Gone(ends, outcome, landed, emitted, anime, onDisk, latest, offline)
    ensures world.Landed() == old(world.Landed()) + landed
    ensures outcome.failed || outcome.manualLinks != [] || world.Files(world.instant) >= latest
            || exists t | old(world.instant) <= t < world.instant :: world.stopped(t)
  {
    outcome := Announcement(anime, latest - onDisk);
    journal.Emit(Announcement(anime, latest - onDisk));
    landed, emitted, ends := [], [Announcement(anime, latest - onDisk)], [];
    GoingStarts(anime, onDisk, latest, offline);
    var current: nat := onDisk;
    ghost var bound: nat := onDisk;
    while current < latest
      invariant world.Onward() && current <= world.Files(world.instant)
      invariant journal.deltas == old(journal.deltas) + emitted
      invariant Going(ends, outcome, landed, emitted, anime, onDisk, bound, current, latest, offline)
      invariant world.Landed() == old(world.Landed()) + landed
      decreases latest - current
    {
      var stopped := world.IsStopped();
      if stopped {
        assert world.stopped(world.instant - 1);
        GoingStops(ends, outcome, landed, emitted, anime, onDisk, bound, current, latest, offline);
        return;
      }
      var end, next := NextEpisode(world, journal, source, offline, anime, current, outcome, landed, emitted, ends, onDisk, bound, latest);
      emitted, ends := emitted + [DeltaOf(anime, end)], ends + [end];
      if !end.Landed? {
        return next, landed, emitted, ends;
      }
      landed := landed + [current + 1];
      outcome, bound, current := next, current + 1, end.cursor;
    }
    GoingStops(ends, outcome, landed, emitted, anime, onDisk, bound, current, latest, offline);
  }

  // ---------------------------------------------------------------- from selection to outcome

  /** jdGate as one caller sees it; DownloadRun has the concurrent callers. */
  class JDGate {
    const resolve: nat -> bool
    var resolved: bool
    var value: bool
    var resolutions: nat

    constructor (resolve: nat -> bool)
      ensures !resolved && !value && resolutions == 0
    {
      this.resolve := resolve;
      resolved, value, resolutions := false, false, 0;
    }

    method Online() returns (online: bool)
      modifies this
      ensures resolved && online == value
      ensures old(resolved) ==> value == old(value) && resolutions == old(resolutions)
      ensures !old(resolved) ==> value == resolve(old(resolutions)) && resolutions == old(resolutions) + 1
    {
      if !resolved {
        resolved, value, resolutions := true, resolve(resolutions), resolutions + 1;
      }
      return value;
    }

    method KnownOffline() returns (offline: bool)
      ensures offline <==> resolved && !value
    {
      return resolved && !value;
    }
  }

  /** What preparing an anime learns outside: whether reading the library root failed, whether the readiness rules
      skip it, how many episodes the season has, and the latest one listed (None: listing failed). */
  datatype Candidate = Candidate(anime: nat, rootFails: bool, skips: bool, total: Option<int>, latest: Option<int>)

  datatype Preparation = Settles(outcome: AnimeOutcome) | Missing(onDisk: nat, latest: nat)

  /** The counters were told of the whole outcome, and of nothing else. */
  ghost predicate Settled(outcome: AnimeOutcome, emitted: seq<AnimeOutcome>) {
    && AddUpTo(emitted, outcome)
    && outcome.skipped == !outcome.checked
    && (outcome.upToDate ==> outcome.checked && !outcome.failed)
  }

  /** Why an anime is over before any episode. */
  datatype EarlyEnd = NotReady | Current | Unprepared(failure: FailureKind)

  /** Over before any episode, with everything said in one delta. */
  ghost predicate EndsEarly(outcome: AnimeOutcome, emitted: seq<AnimeOutcome>, anime: nat, why: EarlyEnd) {
    && outcome == EarlyOutcome(anime, why) && Settled(outcome, emitted) && Brackets(outcome, [])
    && outcome.found == 0 && outcome.failedEpisodes == 0 && outcome.manualLinks == []
    && outcome.skipped == why.NotReady? && outcome.upToDate == why.Current? && outcome.failed == why.Unprepared?
    && (why.Unprepared? ==> outcome.failure == why.failure)
  }

  function EarlyDelta(anime: nat, why: EarlyEnd): AnimeOutcome {
    AnimeOutcome(anime, why.NotReady?, !why.NotReady?, why.Current?, 0, 0, 0, 0, 0, [], false, NoFailure)
  }

  function EarlyOutcome(anime: nat, why: EarlyEnd): AnimeOutcome {
    AnimeOutcome(anime, why.NotReady?, !why.NotReady?, why.Current?, 0, 0, 0, 0, 0, [], why.Unprepared?,
                 if why.Unprepared? then why.failure else NoFailure)
  }

  lemma NothingLanded(outcome: AnimeOutcome)
    requires outcome.downloaded == 0 && outcome.first == 0 && outcome.last == 0
    ensures Brackets(outcome, [])
  {
  }

  lemma EarlySettles(anime: nat, why: EarlyEnd, emitted: seq<AnimeOutcome>)
    requires emitted == [EarlyDelta(anime, why)]
    ensures EndsEarly(EarlyOutcome(anime, why), emitted, anime, why)
  {
    OneAddsUp(emitted, EarlyDelta(anime, why));
    SameCountsAddUp(emitted, EarlyDelta(anime, why), EarlyOutcome(anime, why));
    NothingLanded(EarlyOutcome(anime, why));
  }

  method Finish(journal: Journal, anime: nat, why: EarlyEnd) returns (prep: Preparation)
    modifies journal`deltas
    ensures old(journal.deltas) <= journal.deltas && prep.Settles?
    ensures EndsEarly(prep.outcome, journal.deltas[|old(journal.deltas)|..], anime, why)
  {
    journal.Emit(EarlyDelta(anime, why));
    EarlySettles(anime, why, journal.deltas[|old(journal.deltas)|..]);
    prep := Settles(EarlyOutcome(anime, why));
  }

  /** The folder already holds the whole season or everything listed. */
  predicate AlreadyCurrent(c: Candidate, onDisk: nat) {
    (onDisk > 0 && c.total == Some(onDisk)) || (c.latest.Some? && c.latest.value <= onDisk)
  }

  method PrepareAnimeDownload(world: World, journal: Journal, c: Candidate) returns (prep: Preparation)
    modifies world`instant, world`now, world`log, journal`deltas
    ensures world.Onward() && world.Landed() == old(world.Landed()) && old(journal.deltas) <= journal.deltas
    ensures prep.Missing? ==>
              && journal.deltas == old(journal.deltas) && !c.rootFails && !c.skips
              && prep.onDisk < prep.latest && c.latest == Some(prep.latest) && prep.onDisk == world.Files(old(world.instant))
    ensures prep.Settles? ==>
              EndsEarly(prep.outcome, journal.deltas[|old(journal.deltas)|..], c.anime,
                        if c.rootFails then Unprepared(Configuration)
                        else if c.skips then NotReady
                        else if AlreadyCurrent(c, world.Files(old(world.instant))) then Current
                        else Unprepared(HosterDown))
    ensures !c.rootFails && !c.skips ==>
              var onDisk := world.Files(old(world.instant));
              var whole := c.total.Some? && c.total.value > 0 && c.total.value == onDisk;
              && (prep.Missing? <==> !whole && c.latest.Some? && c.latest.value > onDisk)
              && (prep.Settles? && prep.outcome.upToDate <==> whole || (c.latest.Some? && c.latest.value <= onDisk))
  {
    if c.rootFails {
      prep := Finish(journal, c.anime, Unprepared(Configuration));
      return;
    }
    if c.skips {
      prep := Finish(journal, c.anime, NotReady);
      return;
    }
    var onDisk := world.Count();
    if c.total.Some? && c.total.value > 0 && c.total.value == onDisk {
      prep := Finish(journal, c.anime, Current);
      return;
    }
    if c.latest.None? {
      prep := Finish(journal, c.anime, Unprepared(HosterDown));
      return;
    }
    if c.latest.value <= onDisk {
      prep := Finish(journal, c.anime, Current);
      return;
    }
    return Missing(onDisk, c.latest.value);
  }

  /** What every outcome of an anime satisfies, however it went. */
  ghost predicate Whole(o: AnimeOutcome) {
    && o.skipped == !o.checked && !(o.skipped && o.failed) && !(o.upToDate && (o.skipped || o.failed))
    && o.downloaded + o.failedEpisodes + |o.manualLinks| <= o.found
    && (o.found == 0 ==> (o.failed <==> !o.skipped && !o.upToDate))
    && (o.found > 0 ==> !o.skipped && !o.upToDate && (o.failed <==> o.failedEpisodes == 1))
    && o.failedEpisodes + |o.manualLinks| <= 1
  }

  ghost predicate IsEarly(outcome: AnimeOutcome, anime: nat) {
    exists why :: outcome == EarlyOutcome(anime, why)
  }

  /** The outcome is that of the story `ends`, over the episodes found missing. */
  predicate Follows(outcome: AnimeOutcome, c: Candidate, ends: seq<EpisodeEnd>, offline: bool) {
    && c.latest.Some? && 0 < outcome.found <= c.latest.value
    && Recounts(ends, outcome, c.anime, c.latest.value - outcome.found, c.latest.value, offline)
  }

  /** The outcomes an anime may have: an early one, or the one its story makes. */
  ghost predicate Possible(outcome: AnimeOutcome, c: Candidate, ends: seq<EpisodeEnd>, offline: bool) {
    if outcome.found == 0 then IsEarly(outcome, c.anime) else Follows(outcome, c, ends, offline)
  }

  lemma RecountedIsPossible(outcome: AnimeOutcome, c: Candidate, ends: seq<EpisodeEnd>, onDisk: nat, latest: nat, offline: bool)
    requires Recounts(ends, outcome, c.anime, onDisk, latest, offline) && outcome.found == latest - onDisk > 0 && c.latest == Some(latest)
    ensures Possible(outcome, c, ends, offline)
  {
  }

  lemma EarlyIsWhole(outcome: AnimeOutcome, emitted: seq<AnimeOutcome>, anime: nat, why: EarlyEnd)
    requires EndsEarly(outcome, emitted, anime, why)
    ensures outcome.anime == anime && outcome.found == 0 && Whole(outcome) && IsEarly(outcome, anime) && Settled(outcome, emitted)
    ensures Brackets(outcome, [])
    ensures forall c: Candidate, ends, offline | c.anime == anime :: Possible(outcome, c, ends, offline)
  {
  }

  lemma ToldIsWhole(outcome: AnimeOutcome, landed: seq<nat>, emitted: seq<AnimeOutcome>, anime: nat, onDisk: nat, latest: nat, offline: bool)
    requires Told(outcome, landed, emitted, anime, onDisk, latest, offline) && onDisk < latest
    ensures outcome.found == latest - onDisk > 0 && Whole(outcome) && Settled(outcome, emitted) && Brackets(outcome, landed)
  {
  }

  lemma LandedSince(before: seq<Event>, after: seq<Event>, landed: seq<nat>)
    requires before <= after && CompletedIn(after) == CompletedIn(before) + landed
    ensures CompletedIn(after[|before|..]) == landed
  {
    var so, since := CompletedIn(before), CompletedIn(after[|before|..]);
    assert after == before + after[|before|..];
    CompletedConcat(before, after[|before|..]);
    assert since == (so + since)[|so|..] == (so + landed)[|so|..] == landed;
  }

  /** With episodes missing: ask the gate, then go through them. */
  method DownloadMissing(world: World, journal: Journal, gate: JDGate, source: Source, anime: nat, onDisk: nat, latest: nat)
    returns (outcome: AnimeOutcome, ghost landed: seq<nat>, ghost ends: seq<EpisodeEnd>)
    requires world.FolderNeverShrinks() && onDisk <= world.Files(world.instant) && onDisk < latest
    modifies world`instant, world`now, world`log, world`queries, world`removals, world`sleeps,
             journal`ledger, journal`deltas, gate
    ensures world.Onward() && world.Landed() == old(world.Landed()) + landed
    ensures old(journal.deltas) <= journal.deltas && outcome.anime == anime && outcome.found == latest - onDisk
    ensures Settled(outcome, journal.deltas[|old(journal.deltas)|..]) && Brackets(outcome, landed) && Whole(outcome)
    ensures gate.resolved && (old(gate.resolved) ==> gate.value == old(gate.value))
    ensures SoundEpisodes(outcome, !gate.value, onDisk) && Recounts(ends, outcome, anime, onDisk, latest, !gate.value)
  {
    var _ := gate.Online();
    var offline := gate.KnownOffline();
    ghost var emitted;
    outcome, landed, emitted, ends := DownloadAvailableEpisodes(world, journal, source, offline, anime, onDisk, latest);
    assert journal.deltas[|old(journal.deltas)|..] == emitted;
    ToldIsWhole(outcome, landed, emitted, anime, onDisk, latest, offline);
  }

  /** Every path through an anime tells the counters what its outcome says; the gate is asked only once an episode
      is known to be missing. `landed` are the episodes the run completed, in the order it completed them. */
  method ProcessAnime(world: World, journal: Journal, gate: JDGate, source: Source, c: Candidate)
    returns (outcome: AnimeOutcome, ghost landed: seq<nat>, ghost ends: seq<EpisodeEnd>)
    requires world.FolderNeverShrinks()
    modifies world`instant, world`now, world`log, world`queries, world`removals, world`sleeps,
             journal`ledger, journal`deltas, gate
    ensures old(journal.deltas) <= journal.deltas && outcome.anime == c.anime
    ensures Settled(outcome, journal.deltas[|old(journal.deltas)|..]) && Brackets(outcome, landed)
    ensures old(world.log) <= world.log && landed == CompletedIn(world.log[|old(world.log)|..])
    ensures outcome.found == 0 ==> gate.resolved == old(gate.resolved) && gate.resolutions == old(gate.resolutions)
    ensures outcome.found > 0 ==>
              && gate.resolved && outcome.checked && !outcome.upToDate
              && c.latest.Some? && SoundEpisodes(outcome, !gate.value, c.latest.value - outcome.found)
    ensures old(gate.resolved) ==> gate.value == old(gate.value)
    ensures Whole(outcome)
    ensures Possible(outcome, c, ends, !gate.value)
  {
    landed, ends := [], [];
    var prep := PrepareAnimeDownload(world, journal, c);
    if prep.Settles? {
      ghost var why :| EndsEarly(prep.outcome, journal.deltas[|old(journal.deltas)|..], c.anime, why);
      EarlyIsWhole(prep.outcome, journal.deltas[|old(journal.deltas)|..], c.anime, why);
      LandedSince(old(world.log), world.log, []);
      return prep.outcome, [], [];
    }
    outcome, landed, ends := DownloadMissing(world, journal, gate, source, c.anime, prep.onDisk, prep.latest);
    RecountedIsPossible(outcome, c, ends, prep.onDisk, prep.latest, !gate.value);
    LandedSince(old(world.log), world.log, landed);
  }
}
