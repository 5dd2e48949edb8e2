/** What a download run can observe and do outside itself (internal/download/service.go:66-88): the disk, the
    clock, JDownloader and the stop signal. Every answer is an arbitrary function of the instant it is asked at,
    so a theorem about a World holds for whatever the outside does. */
module DownloadPorts {
  import opened Basics

  datatype LinkSignal = LinkSignal(finished: bool, running: bool)

  datatype PackageSignal = PackageSignal(finished: bool, running: bool, finishedObserved: bool, runningObserved: bool)

  datatype DestinationStatus = DestinationStatus(
    matched: bool, crawlOnline: int, crawlOffline: int, packages: seq<PackageSignal>, links: seq<LinkSignal>)

  /** Where an attempt or an episode ended (service_hoster_watch_exit.go:19-87). */
  datatype Exit =
    | Unset
    | CounterUnavailable | DiskAheadAtEntry | PrecheckDead | FSPollConfirmed | FSPollDeadline
    | GraceClientAbsentFirst | GraceClientAbsentFallback | GraceQueryErrorFirst | GraceQueryErrorFallback
    | GraceClassifiedDead | GraceNoSignalFirst | GraceNoSignalFallback | GraceDiskConfirmed
    | JDUnavailable | CancelledBeforeAttempt | EnqueueError | NoHosters

  datatype Event =
    | Counted(files: nat)
    | LookedForParts(found: bool)
    | Queried(answer: Option<DestinationStatus>)
    | Removed(stage: Exit)
    | Slept(millis: nat)
    | Completed(episode: nat)
    | Enqueued(hoster: nat, accepted: bool)

  /** The episodes completed along a log, in order. */
  function CompletedIn(log: seq<Event>): seq<nat> {
    if log == [] then []
    else
      var rest, last := CompletedIn(log[..|log| - 1]), log[|log| - 1];
      if last.Completed? then rest + [last.episode] else rest
  }

  lemma CompletedSnoc(log: seq<Event>, e: Event)
    ensures CompletedIn(log + [e]) == CompletedIn(log) + if e.Completed? then [e.episode] else []
  {
    assert (log + [e])[..|log|] == log;
  }

  lemma {:induction false} CompletedConcat(a: seq<Event>, b: seq<Event>)
    ensures CompletedIn(a + b) == CompletedIn(a) + CompletedIn(b)
  {
    if b == [] {
      assert a + b == a;
    } else {
      var init, last := b[..|b| - 1], b[|b| - 1];
      assert b == init + [last] && a + b == (a + init) + [last];
      CompletedConcat(a, init);
      CompletedSnoc(a + init, last);
      CompletedSnoc(init, last);
    }
  }

  class World {
    const hasCounter: bool
    const hasJD: bool
    const detectPhase: bool
    const disk: nat -> nat
    const parts: nat -> bool
    const status: nat -> Option<DestinationStatus>
    const accepts: nat -> bool
    const stopped: nat -> bool
    const drift: nat -> nat
    var instant: nat
    var now: int
    var log: seq<Event>
    var queries: nat
    var removals: nat
    var sleeps: nat

    constructor (hasCounter: bool, hasJD: bool, detectPhase: bool, disk: nat -> nat, parts: nat -> bool,
                 status: nat -> Option<DestinationStatus>, accepts: nat -> bool, stopped: nat -> bool,
                 drift: nat -> nat, now: int)
      ensures instant == 0 && this.now == now && log == [] && queries == removals == sleeps == 0
      ensures this.hasCounter == hasCounter && this.hasJD == hasJD && this.detectPhase == detectPhase
      ensures this.disk == disk && this.parts == parts && this.status == status && this.accepts == accepts
      ensures this.stopped == stopped && this.drift == drift
    {
      this.hasCounter, this.hasJD, this.detectPhase := hasCounter, hasJD, detectPhase;
      this.disk, this.parts, this.status, this.accepts, this.stopped := disk, parts, status, accepts, stopped;
      this.drift, this.instant, this.now, this.log := drift, 0, now, [];
      queries, removals, sleeps := 0, 0, 0;
    }

    /** downloadedEpisodeBaseline's answer at an instant: no counter counts nothing. */
    function Files(t: nat): nat {
      if hasCounter then disk(t) else 0
    }

    /** The episodes completed so far. */
    function Landed(): seq<nat>
      reads `log
    {
      CompletedIn(log)
    }

    /** Nobody deletes episodes while the run looks at the folder. */
    ghost predicate FolderNeverShrinks() {
      forall t, u | t <= u :: Files(t) <= Files(u)
    }

    /** At some instant in [from, to) the folder held more than `baseline`. */
    ghost predicate Exceeds(baseline: nat, from: nat, to: nat) {
      exists t | from <= t < to :: Files(t) > baseline
    }

    /** Time has passed and nothing was erased from the log. */
    twostate predicate Onward()
      reads this
    {
      old(instant) <= instant && old(now) <= now && old(log) <= log
    }

    method Count() returns (files: nat)
      modifies `instant, `now, `log
      ensures files == Files(old(instant))
      ensures instant == old(instant) + 1 && now >= old(now) && log == old(log) + [Counted(files)]
      ensures Landed() == old(Landed())
    {
      files := Files(instant);
      now := now + drift(instant);
      instant := instant + 1;
      CompletedSnoc(log, Counted(files));
      log := log + [Counted(files)];
    }

    /** ctx.Err() != nil. */
    method IsStopped() returns (answer: bool)
      modifies `instant, `now
      ensures answer == stopped(old(instant)) && instant == old(instant) + 1 && now >= old(now)
    {
      answer := stopped(instant);
      now := now + drift(instant);
      instant := instant + 1;
    }

    /** A call to the site: time passes. */
    method Visit()
      modifies `instant, `now
      ensures instant == old(instant) + 1 && now >= old(now)
    {
      now := now + drift(instant);
      instant := instant + 1;
    }

    method LookForParts() returns (found: bool)
      modifies `instant, `now, `log
      ensures found == parts(old(instant))
      ensures instant == old(instant) + 1 && now >= old(now) && log == old(log) + [LookedForParts(found)]
      ensures Landed() == old(Landed())
    {
      found := parts(instant);
      now := now + drift(instant);
      instant := instant + 1;
      CompletedSnoc(log, LookedForParts(found));
      log := log + [LookedForParts(found)];
    }

    method Query() returns (answer: Option<DestinationStatus>)
      requires hasJD
      modifies `instant, `now, `log, `queries
      ensures instant == old(instant) + 1 && now >= old(now) && log == old(log) + [Queried(answer)]
      ensures answer == status(old(instant)) && queries == old(queries) + 1 && Landed() == old(Landed())
    {
      answer := status(instant);
      now := now + drift(instant);
      instant := instant + 1;
      CompletedSnoc(log, Queried(answer));
      log := log + [Queried(answer)];
      queries := queries + 1;
    }

    method Remove(stage: Exit)
      requires hasJD
      modifies `instant, `now, `log, `removals
      ensures instant == old(instant) + 1 && now >= old(now) && log == old(log) + [Removed(stage)]
      ensures removals == old(removals) + 1 && Landed() == old(Landed())
    {
      now := now + drift(instant);
      instant := instant + 1;
      CompletedSnoc(log, Removed(stage));
      log := log + [Removed(stage)];
      removals := removals + 1;
    }

    /** PollSleep: the clock moves on by at least the time asked for. */
    method Sleep(millis: nat)
      modifies `instant, `now, `log, `sleeps
      ensures instant == old(instant) + 1 && now >= old(now) + millis && log == old(log) + [Slept(millis)]
      ensures sleeps == old(sleeps) + 1 && Landed() == old(Landed())
    {
      now := now + millis + drift(instant);
      instant := instant + 1;
      CompletedSnoc(log, Slept(millis));
      log := log + [Slept(millis)];
      sleeps := sleeps + 1;
    }

    /** completeDownloadedEpisode: rename what landed, best effort. */
    method Complete(episode: nat)
      modifies `instant, `now, `log
      ensures instant == old(instant) + 1 && now >= old(now) && log == old(log) + [Completed(episode)]
      ensures Landed() == old(Landed()) + [episode]
    {
      now := now + drift(instant);
      instant := instant + 1;
      CompletedSnoc(log, Completed(episode));
      log := log + [Completed(episode)];
    }

    method Enqueue(hoster: nat) returns (accepted: bool)
      requires hasJD
      modifies `instant, `now, `log
      ensures accepted == accepts(old(instant))
      ensures instant == old(instant) + 1 && now >= old(now) && log == old(log) + [Enqueued(hoster, accepted)]
      ensures Landed() == old(Landed())
    {
      accepted := accepts(instant);
      now := now + drift(instant);
      instant := instant + 1;
      CompletedSnoc(log, Enqueued(hoster, accepted));
      log := log + [Enqueued(hoster, accepted)];
    }
  }
}
