/** The watch over one hoster attempt (internal/download/service_hoster_watch.go): the disk is the only authority
    for success, JDownloader's status may only speak for failure, and the attempt always ends. */
module HosterWatch {
  import opened Basics
  import opened DownloadPorts

  const DETECT_START_PROBE_INTERVAL: nat := 5_000
  const DETECT_START_GRACE: nat := 60_000
  const COMPLETION_POLL_INTERVAL: nat := 5_000
  const COMPLETION_POLL_TIMEOUT: nat := 1_800_000

  // ---------------------------------------------------------------- reading JDownloader's status

  datatype Verdict = Downloading | FinishedOK | Dead

  ghost predicate AnyLinkRunning(st: DestinationStatus) {
    exists i | 0 <= i < |st.links| :: st.links[i].running
  }

  ghost predicate AnyLinkFinished(st: DestinationStatus) {
    exists i | 0 <= i < |st.links| :: st.links[i].finished
  }

  ghost predicate AnyPackageRunning(st: DestinationStatus) {
    exists i | 0 <= i < |st.packages| :: st.packages[i].runningObserved && st.packages[i].running
  }

  /** JDownloader vouches for the destination: something resolved or something is transferring. */
  ghost predicate Alive(st: DestinationStatus) {
    st.crawlOnline > 0 || AnyLinkRunning(st) || AnyPackageRunning(st)
  }

  /** Each verdict exactly: whatever is alive, or not there yet, is still downloading, and death needs an
      offline link with no sign of life beside it. */
  method ClassifyJDStatus(st: DestinationStatus) returns (verdict: Verdict)
    ensures verdict.Dead? <==> st.matched && !Alive(st) && st.crawlOffline > 0
    ensures verdict.FinishedOK? <==> st.matched && !Alive(st) && st.crawlOffline <= 0 && AnyLinkFinished(st)
    ensures verdict.Dead? <==>
            && st.matched && st.crawlOnline <= 0 && st.crawlOffline > 0
            && (forall i | 0 <= i < |st.links| :: !st.links[i].running)
            && (forall i | 0 <= i < |st.packages| :: !(st.packages[i].runningObserved && st.packages[i].running))
  {
    if !st.matched {
      return Downloading;
    }
    if st.crawlOnline > 0 {
      return Downloading;
    }
    for i := 0 to |st.links|
      invariant forall k | 0 <= k < i :: !st.links[k].running
    {
      if st.links[i].running {
        return Downloading;
      }
    }
    for i := 0 to |st.packages|
      invariant forall k | 0 <= k < i :: !(st.packages[k].runningObserved && st.packages[k].running)
    {
      if st.packages[i].runningObserved && st.packages[i].running {
        return Downloading;
      }
    }
    if st.crawlOffline > 0 {
      return Dead;
    }
    for i := 0 to |st.links|
      invariant forall k | 0 <= k < i :: !st.links[k].finished
    {
      if st.links[i].finished {
        return FinishedOK;
      }
    }
    return Downloading;
  }

  method HasPositiveJDSignal(st: DestinationStatus) returns (alive: bool)
    ensures alive <==> Alive(st)
    ensures alive <==>
            || st.crawlOnline > 0
            || (exists i | 0 <= i < |st.links| :: st.links[i].running)
            || (exists i | 0 <= i < |st.packages| :: st.packages[i].runningObserved && st.packages[i].running)
  {
    if st.crawlOnline > 0 {
      return true;
    }
    for i := 0 to |st.packages|
      invariant forall k | 0 <= k < i :: !(st.packages[k].runningObserved && st.packages[k].running)
    {
      if st.packages[i].runningObserved && st.packages[i].running {
        return true;
      }
    }
    for i := 0 to |st.links|
      invariant forall k | 0 <= k < i :: !st.links[k].running
    {
      if st.links[i].running {
        return true;
      }
    }
    return false;
  }

  // ---------------------------------------------------------------- what an attempt leaves behind

  datatype Kind = Success | DeadHoster | Timeout

  datatype Outcome = Outcome(kind: Kind, exit: Exit)

  datatype Probe = Probe(elapsed: int, found: bool, landed: bool)

  /** No look at the folder in log[from..to] found more than the baseline. */
  ghost predicate NothingNew(log: seq<Event>, from: nat, to: nat, baseline: nat)
    requires to <= |log|
  {
    forall i | from <= i < to && log[i].Counted? :: log[i].files <= baseline
  }

  /** The log from `from` on ends with the first look that found more than the baseline and, at once, the
      episode's completion. */
  ghost predicate Confirmed(log: seq<Event>, from: nat, baseline: nat, episode: nat) {
    && |log| >= from + 2
    && log[|log| - 1] == Completed(episode)
    && log[|log| - 2].Counted? && log[|log| - 2].files > baseline
    && NothingNew(log, from, |log| - 2, baseline)
  }

  /** A stretch of log in which nothing new was seen only delays the confirmation, or the giving up, after it. */
  lemma NothingNewBefore(log: seq<Event>, from: nat, mid: nat, baseline: nat, episode: nat)
    requires from <= mid <= |log| && NothingNew(log, from, mid, baseline)
    ensures Confirmed(log, mid, baseline, episode) ==> Confirmed(log, from, baseline, episode)
    ensures NothingNew(log, mid, |log|, baseline) ==> NothingNew(log, from, |log|, baseline)
  {
  }

  lemma NothingNewKept(before: seq<Event>, log: seq<Event>, from: nat, baseline: nat)
    requires before <= log && from <= |before| && NothingNew(before, from, |before|, baseline)
    ensures NothingNew(log, from, |before|, baseline)
  {
  }

  lemma NoLooks(before: seq<Event>, log: seq<Event>, from: nat, baseline: nat)
    requires before <= log && from <= |before| && NothingNew(before, from, |before|, baseline)
    requires forall i | |before| <= i < |log| :: !log[i].Counted?
    ensures NothingNew(log, from, |log|, baseline)
  {
  }

  predicate DiskExit(exit: Exit) {
    exit in {DiskAheadAtEntry, GraceDiskConfirmed, FSPollConfirmed}
  }

  /** The exit alone tells the outcome. */
  function KindOf(exit: Exit): Kind {
    if DiskExit(exit) then Success
    else if exit in {PrecheckDead, GraceClientAbsentFirst, GraceQueryErrorFirst, GraceClassifiedDead, GraceNoSignalFirst}
      then DeadHoster
    else Timeout
  }

  /** The exits an attempt may end at; the others belong to the chain of attempts. */
  predicate AttemptExit(exit: Exit) {
    exit !in {Unset, JDUnavailable, CancelledBeforeAttempt, EnqueueError, NoHosters}
  }

  ghost predicate DeadStatus(st: DestinationStatus) {
    st.matched && !Alive(st) && st.crawlOffline > 0
  }

  /** Why packages may be removed: the answer just read says the hoster is dead, or it is the first hoster and
      after the grace JDownloader says nothing, or does not answer. */
  ghost predicate Justified(answer: Option<DestinationStatus>, stage: Exit, isFirst: bool) {
    match answer
    case None => isFirst && stage == GraceQueryErrorFirst
    case Some(st) =>
      if DeadStatus(st) then stage in {PrecheckDead, GraceClassifiedDead}
      else isFirst && !Alive(st) && stage == GraceNoSignalFirst
  }

  /** A removal is the attempt's last act, follows the answer that justifies it and is named by the exit. */
  ghost predicate RemovedLast(log: seq<Event>, from: nat, exit: Exit, isFirst: bool) {
    && |log| >= from + 2
    && log[|log| - 1] == Removed(exit)
    && log[|log| - 2].Queried?
    && Justified(log[|log| - 2].answer, exit, isFirst)
  }

  predicate RemovalExit(exit: Exit) {
    exit in {PrecheckDead, GraceQueryErrorFirst, GraceClassifiedDead, GraceNoSignalFirst}
  }

  /** The exits that remove nothing still tell which hoster it was and what JDownloader answered last. */
  ghost predicate Explained(log: seq<Event>, exit: Exit, isFirst: bool) {
    match exit
    case GraceClientAbsentFirst => isFirst
    case GraceClientAbsentFallback => !isFirst
    case GraceQueryErrorFallback => !isFirst && |log| > 0 && log[|log| - 1] == Queried(None)
    case GraceNoSignalFallback =>
      && !isFirst && |log| > 0 && log[|log| - 1].Queried? && log[|log| - 1].answer.Some?
      && !DeadStatus(log[|log| - 1].answer.value) && !Alive(log[|log| - 1].answer.value)
    case _ => true
  }

  /** A sign that the transfer is under way: a part file, or an answer that is alive. */
  ghost predicate Vouches(e: Event) {
    e == LookedForParts(true) || (e.Queried? && e.answer.Some? && Alive(e.answer.value))
  }

  // ---------------------------------------------------------------- what the answers call for

  ghost predicate DeadAt(world: World, t: nat) {
    world.hasJD && world.status(t).Some? && DeadStatus(world.status(t).value)
  }

  ghost predicate AliveAt(world: World, t: nat) {
    world.hasJD && world.status(t).Some? && Alive(world.status(t).value)
  }

  /** JDownloader answers, and says nothing either way. */
  ghost predicate NoSignAt(world: World, t: nat) {
    world.hasJD && world.status(t).Some? && !Alive(world.status(t).value) && !DeadStatus(world.status(t).value)
  }

  /** After a silent grace the answer at `t` ends the attempt at `exit`. */
  ghost predicate GraceEnds(world: World, t: nat, isFirst: bool, exit: Exit) {
    match exit
    case GraceClientAbsentFirst => !world.hasJD && isFirst
    case GraceClientAbsentFallback => !world.hasJD && !isFirst
    case GraceQueryErrorFirst => world.hasJD && world.status(t).None? && isFirst
    case GraceQueryErrorFallback => world.hasJD && world.status(t).None? && !isFirst
    case GraceClassifiedDead => DeadAt(world, t)
    case GraceNoSignalFirst => NoSignAt(world, t) && isFirst
    case GraceNoSignalFallback => NoSignAt(world, t) && !isFirst
    case _ => false
  }

  /** After a silent grace the answer at `t` costs the destination its packages: nothing vouches for it, and the
      hoster is the first or JDownloader reports an offline link. A finished link protects nothing. */
  ghost predicate Costs(world: World, t: nat, isFirst: bool) {
    && world.hasJD
    && match world.status(t)
       case None => isFirst
       case Some(st) => !Alive(st) && (isFirst || (st.matched && st.crawlOffline > 0))
  }

  /** The i-th probe of a grace that starts at `s` sees a sign: an episode more than the baseline, or a part file. */
  ghost predicate SignAt(world: World, baseline: nat, s: nat, i: nat) {
    world.Files(s + 3 * i + 1) > baseline || world.parts(s + 3 * i + 2)
  }

  const PROBES: nat := DETECT_START_GRACE / DETECT_START_PROBE_INTERVAL

  /** No probe of the grace sees anything. */
  ghost predicate SilentGrace(world: World, baseline: nat, s: nat) {
    world.detectPhase && forall i: nat | i < PROBES :: !SignAt(world, baseline, s, i)
  }

  /** The first sign of the grace is the episode itself. */
  ghost predicate LandsInGrace(world: World, baseline: nat, s: nat) {
    && world.detectPhase
    && exists k: nat | k < PROBES && SignAt(world, baseline, s, k) ::
         world.Files(s + 3 * k + 1) > baseline && forall i: nat | i < k :: !SignAt(world, baseline, s, i)
  }

  /** When the grace starts, for an attempt that starts at `t`: after one look and, with a client, one question. */
  function GraceStart(world: World, t: nat): nat {
    if world.hasJD then t + 2 else t + 1
  }

  /** The grace that starts at `s` ends the attempt at `exit`, or leaves it to the completion poll. */
  ghost predicate TransferEnds(world: World, s: nat, baseline: nat, isFirst: bool, exit: Exit) {
    if LandsInGrace(world, baseline, s) then exit == GraceDiskConfirmed
    else if SilentGrace(world, baseline, s) && !AliveAt(world, s + 3 * PROBES) then GraceEnds(world, s + 3 * PROBES, isFirst, exit)
    else exit in {FSPollConfirmed, FSPollDeadline}
  }

  /** The attempt that starts at `t` ends at `exit`. */
  ghost predicate AttemptEnds(world: World, t: nat, baseline: nat, isFirst: bool, exit: Exit) {
    if !world.hasCounter then exit == CounterUnavailable
    else if world.Files(t) > baseline then exit == DiskAheadAtEntry
    else if DeadAt(world, t + 1) then exit == PrecheckDead
    else TransferEnds(world, GraceStart(world, t), baseline, isFirst, exit)
  }

  /** The attempt that starts at `t` removes its destination's packages. */
  ghost predicate LosesPackages(world: World, t: nat, baseline: nat, isFirst: bool) {
    && world.hasCounter && world.hasJD && world.Files(t) <= baseline
    && (DeadAt(world, t + 1)
        || (SilentGrace(world, baseline, t + 2) && Costs(world, t + 2 + 3 * PROBES, isFirst)))
  }

  // ---------------------------------------------------------------- the steps of an attempt

  method JDPreCheckIsDead(world: World) returns (dead: bool)
    modifies world`instant, world`now, world`log, world`queries, world`removals
    ensures world.Onward() && world.Landed() == old(world.Landed())
    ensures dead <==> DeadAt(world, old(world.instant))
    ensures world.queries == old(world.queries) + if world.hasJD then 1 else 0
    ensures world.removals == old(world.removals) + if dead then 1 else 0
    ensures dead ==> RemovedLast(world.log, |old(world.log)|, PrecheckDead, false)
    ensures !dead ==>
              && world.instant == old(world.instant) + (if world.hasJD then 1 else 0)
              && world.log == old(world.log) + if world.hasJD then [Queried(world.status(old(world.instant)))] else []
    ensures forall i | |old(world.log)| <= i < |world.log| :: !world.log[i].Counted?
  {
    if !world.hasJD {
      return false;
    }
    var answer := world.Query();
    if answer.None? {
      return false;
    }
    var verdict := ClassifyJDStatus(answer.value);
    if !verdict.Dead? {
      return false;
    }
    world.Remove(PrecheckDead);
    return true;
  }

  predicate LandedDuringGrace(probes: seq<Probe>) {
    |probes| > 0 && probes[|probes| - 1].landed
  }

  /** Only the last probe may have seen anything, no probe saw both signals, and probes are five seconds apart. */
  ghost predicate Timeline(probes: seq<Probe>) {
    && (forall i | 0 <= i < |probes| - 1 :: !probes[i].found && !probes[i].landed)
    && (forall i | 0 <= i < |probes| :: !(probes[i].found && probes[i].landed))
    && (forall i | 0 < i < |probes| :: probes[i].elapsed >= probes[i - 1].elapsed + 5_000)
  }

  /** The probes since `s` say what the folder said: all but the last saw nothing. */
  ghost predicate Probed(world: World, baseline: nat, s: nat, probes: seq<Probe>) {
    && (forall i: nat | i + 1 < |probes| :: !SignAt(world, baseline, s, i))
    && (|probes| > 0 ==>
          var n := |probes| - 1;
          && (probes[n].landed <==> world.Files(s + 3 * n + 1) > baseline)
          && (probes[n].found <==> !probes[n].landed && world.parts(s + 3 * n + 2)))
  }

  /** One probe: sleep, look at the folder and, when nothing landed, look for part files. */
  method ProbeOnce(world: World, baseline: nat, attemptStart: int) returns (probe: Probe)
    modifies world`instant, world`now, world`log, world`sleeps
    ensures world.Onward() && world.Landed() == old(world.Landed()) && world.sleeps == old(world.sleeps) + 1
    ensures world.now >= old(world.now) + DETECT_START_PROBE_INTERVAL && probe.elapsed == world.now - attemptStart
    ensures probe.landed <==> world.Files(old(world.instant) + 1) > baseline
    ensures probe.found <==> !probe.landed && world.parts(old(world.instant) + 2)
    ensures world.instant == old(world.instant) + if probe.landed then 2 else 3
    ensures world.log == old(world.log) + [Slept(DETECT_START_PROBE_INTERVAL), Counted(world.Files(old(world.instant) + 1))]
                         + if probe.landed then [] else [LookedForParts(probe.found)]
  {
    world.Sleep(DETECT_START_PROBE_INTERVAL);
    var files := world.Count();
    var landed := files > baseline;
    var found := false;
    if !landed {
      found := world.LookForParts();
    }
    probe := Probe(world.now - attemptStart, found, landed);
  }

  lemma ProbedEnough(world: World, baseline: nat, s: nat, probes: seq<Probe>)
    requires world.detectPhase && Probed(world, baseline, s, probes) && 0 < |probes| <= PROBES
    requires probes[|probes| - 1].landed || probes[|probes| - 1].found
    ensures !SilentGrace(world, baseline, s)
    ensures LandsInGrace(world, baseline, s) <==> probes[|probes| - 1].landed
  {
    var n: nat := |probes| - 1;
    assert SignAt(world, baseline, s, n);
    if k: nat :| k < PROBES && SignAt(world, baseline, s, k) && world.Files(s + 3 * k + 1) > baseline && forall i: nat | i < k :: !SignAt(world, baseline, s, i) {
      assert k == n;
    }
  }

  /** No probe since `s` saw anything. */
  ghost predicate Unseen(world: World, baseline: nat, s: nat, probes: seq<Probe>) {
    && (forall i: nat | i < |probes| :: !SignAt(world, baseline, s, i))
    && (forall i | 0 <= i < |probes| :: !probes[i].found && !probes[i].landed)
    && (forall i | 0 < i < |probes| :: probes[i].elapsed >= probes[i - 1].elapsed + DETECT_START_PROBE_INTERVAL)
  }

  lemma ProbedNext(world: World, baseline: nat, s: nat, probes: seq<Probe>, probe: Probe)
    requires Unseen(world, baseline, s, probes) && |probes| < PROBES
    requires probes != [] ==> probe.elapsed >= probes[|probes| - 1].elapsed + DETECT_START_PROBE_INTERVAL
    requires probe.landed <==> world.Files(s + 3 * |probes| + 1) > baseline
    requires probe.found <==> !probe.landed && world.parts(s + 3 * |probes| + 2)
    ensures Timeline(probes + [probe]) && Probed(world, baseline, s, probes + [probe])
    ensures !probe.landed && !probe.found ==> Unseen(world, baseline, s, probes + [probe])
  {
    assert probe.landed || probe.found <==> SignAt(world, baseline, s, |probes|);
  }

  lemma UnseenIsSilent(world: World, baseline: nat, s: nat, probes: seq<Probe>)
    requires world.detectPhase && Unseen(world, baseline, s, probes) && |probes| == PROBES
    ensures SilentGrace(world, baseline, s) && !LandsInGrace(world, baseline, s)
    ensures Timeline(probes) && Probed(world, baseline, s, probes)
  {
    assert !SignAt(world, baseline, s, PROBES - 1);
  }

  /** What a look by a probe leaves in the log. */
  lemma ProbeLogged(before: seq<Event>, log: seq<Event>, from: nat, baseline: nat, files: nat, found: bool)
    requires from <= |before| && NothingNew(before, from, |before|, baseline)
    requires log == before + [Slept(DETECT_START_PROBE_INTERVAL), Counted(files)] + if files > baseline then [] else [LookedForParts(found)]
    ensures files > baseline ==>
              && |log| == |before| + 2 && log[|log| - 1] == Counted(files) && NothingNew(log, from, |log| - 1, baseline)
    ensures files <= baseline ==>
              && |log| == |before| + 3 && log[|log| - 1] == LookedForParts(found) && NothingNew(log, from, |log|, baseline)
  {
  }

  /** One round of the detect loop: the probe, and what the log and the signs amount to after it. */
  method ProbeNext(world: World, baseline: nat, attemptStart: int, probes: seq<Probe>, ghost s: nat, ghost from: nat)
    returns (probe: Probe)
    requires |probes| < PROBES && world.instant == s + 3 * |probes| && from <= |world.log|
    requires Unseen(world, baseline, s, probes) && NothingNew(world.log, from, |world.log|, baseline)
    requires probes != [] ==> world.now >= attemptStart + probes[|probes| - 1].elapsed
    modifies world`instant, world`now, world`log, world`sleeps
    ensures world.Onward() && world.Landed() == old(world.Landed()) && world.sleeps == old(world.sleeps) + 1
    ensures world.now >= old(world.now) + DETECT_START_PROBE_INTERVAL && world.now == attemptStart + probe.elapsed
    ensures Timeline(probes + [probe]) && Probed(world, baseline, s, probes + [probe]) && |world.log| > from
    ensures !probe.landed && !probe.found ==> Unseen(world, baseline, s, probes + [probe])
    ensures !probe.landed ==> world.instant == s + 3 * |probes| + 3 && NothingNew(world.log, from, |world.log|, baseline)
    ensures probe.found ==> !probe.landed && world.log[|world.log| - 1] == LookedForParts(true)
    ensures probe.landed ==>
              && world.log[|world.log| - 1].Counted? && world.log[|world.log| - 1].files > baseline
              && NothingNew(world.log, from, |world.log| - 1, baseline) && world.Exceeds(baseline, s, world.instant)
  {
    ghost var before := world.log;
    probe := ProbeOnce(world, baseline, attemptStart);
    ProbeLogged(before, world.log, from, baseline, world.Files(s + 3 * |probes| + 1), probe.found);
    ProbedNext(world, baseline, s, probes, probe);
  }

  method DetectDownloadStartPhase(world: World, baseline: nat, attemptStart: int) returns (started: bool, probes: seq<Probe>)
    modifies world`instant, world`now, world`log, world`sleeps
    ensures world.Onward() && world.Landed() == old(world.Landed())
    ensures world.sleeps == old(world.sleeps) + |probes| && Timeline(probes)
    ensures Probed(world, baseline, old(world.instant), probes)
    ensures started <==> !SilentGrace(world, baseline, old(world.instant))
    ensures LandedDuringGrace(probes) <==> LandsInGrace(world, baseline, old(world.instant))
    ensures LandedDuringGrace(probes) ==>
              && |world.log| > |old(world.log)|
              && world.log[|world.log| - 1].Counted? && world.log[|world.log| - 1].files > baseline
              && NothingNew(world.log, |old(world.log)|, |world.log| - 1, baseline)
              && world.Exceeds(baseline, old(world.instant), world.instant)
    ensures !LandedDuringGrace(probes) ==>
              && NothingNew(world.log, |old(world.log)|, |world.log|, baseline)
              && world.instant == old(world.instant) + 3 * |probes|
    ensures started && world.detectPhase && !LandedDuringGrace(probes) ==>
              |world.log| > |old(world.log)| && world.log[|world.log| - 1] == LookedForParts(true)
    ensures |probes| <= 12 && (!started ==> |probes| == 12 && world.now >= old(world.now) + 60_000)
  {
    probes := [];
    if !world.detectPhase {
      return true, [];
    }
    for i := 0 to PROBES
      invariant world.Onward() && world.Landed() == old(world.Landed())
      invariant world.sleeps == old(world.sleeps) + i && |probes| == i && world.instant == old(world.instant) + 3 * i
      invariant world.now >= old(world.now) + i * DETECT_START_PROBE_INTERVAL
      invariant NothingNew(world.log, |old(world.log)|, |world.log|, baseline)
      invariant i > 0 ==> world.now >= attemptStart + probes[i - 1].elapsed
      invariant Unseen(world, baseline, old(world.instant), probes)
    {
      var probe := ProbeNext(world, baseline, attemptStart, probes, old(world.instant), |old(world.log)|);
      probes := probes + [probe];
      if probe.landed || probe.found {
        ProbedEnough(world, baseline, old(world.instant), probes);
        return true, probes;
      }
    }
    UnseenIsSilent(world, baseline, old(world.instant), probes);
    return false, probes;
  }

  function FirstHosterOutcome(isFirst: bool, first: Exit, fallback: Exit): Outcome {
    if isFirst then Outcome(DeadHoster, first) else Outcome(Timeout, fallback)
  }

  /** No outcome means the hoster is alive and the attempt goes on to the completion poll. */
  method EvaluateJDAfterGrace(world: World, isFirst: bool) returns (outcome: Option<Outcome>)
    modifies world`instant, world`now, world`log, world`queries, world`removals
    ensures world.Onward() && world.Landed() == old(world.Landed())
    ensures world.queries == old(world.queries) + if world.hasJD then 1 else 0
    ensures forall i | |old(world.log)| <= i < |world.log| :: !world.log[i].Counted?
    ensures outcome.None? <==> AliveAt(world, old(world.instant))
    ensures world.removals == old(world.removals) + if Costs(world, old(world.instant), isFirst) then 1 else 0
    ensures outcome.None? ==> |world.log| > |old(world.log)| && Vouches(world.log[|world.log| - 1])
    ensures outcome.Some? ==>
              var exit := outcome.value.exit;
              && outcome.value.kind == KindOf(exit)
              && GraceEnds(world, old(world.instant), isFirst, exit)
              && (RemovalExit(exit) ==> RemovedLast(world.log, |old(world.log)|, exit, isFirst))
              && Explained(world.log, exit, isFirst)
  {
    if !world.hasJD {
      return Some(FirstHosterOutcome(isFirst, GraceClientAbsentFirst, GraceClientAbsentFallback));
    }
    var answer := world.Query();
    if answer.None? {
      if isFirst {
        world.Remove(GraceQueryErrorFirst);
      }
      return Some(FirstHosterOutcome(isFirst, GraceQueryErrorFirst, GraceQueryErrorFallback));
    }
    var verdict := ClassifyJDStatus(answer.value);
    if verdict.Dead? {
      world.Remove(GraceClassifiedDead);
      return Some(Outcome(DeadHoster, GraceClassifiedDead));
    }
    var alive := HasPositiveJDSignal(answer.value);
    if alive {
      return None;
    }
    if isFirst {
      world.Remove(GraceNoSignalFirst);
    }
    return Some(FirstHosterOutcome(isFirst, GraceNoSignalFirst, GraceNoSignalFallback));
  }

  /** log[from..] is a poll that started at `t`: every other event is a look, and tells what the folder held. */
  ghost predicate Polling(world: World, log: seq<Event>, from: nat, t: nat) {
    && from <= |log|
    && forall i | from <= i < |log| ::
         log[i] == if (i - from) % 2 == 0 then Counted(world.Files(t + (i - from))) else Slept(COMPLETION_POLL_INTERVAL)
  }

  /** The poll has ended with a look or, when that look found the episode, with its completion. */
  ghost predicate Polled(world: World, log: seq<Event>, from: nat, t: nat, episode: nat) {
    && |log| > from
    && ((log[|log| - 1].Counted? && Polling(world, log, from, t))
        || (log[|log| - 1] == Completed(episode) && |log| > from + 1 && log[|log| - 2].Counted? && Polling(world, log[..|log| - 1], from, t)))
  }

  lemma PollingNext(world: World, log: seq<Event>, from: nat, t: nat, baseline: nat, e: Event)
    requires Polling(world, log, from, t) && NothingNew(log, from, |log|, baseline)
    requires e == if (|log| - from) % 2 == 0 then Counted(world.Files(t + (|log| - from))) else Slept(COMPLETION_POLL_INTERVAL)
    ensures Polling(world, log + [e], from, t)
    ensures !(e.Counted? && e.files > baseline) ==> NothingNew(log + [e], from, |log + [e]|, baseline)
  {
  }

  lemma PollConfirms(world: World, log: seq<Event>, from: nat, t: nat, baseline: nat, episode: nat, files: nat)
    requires from <= |log| && NothingNew(log, from, |log|, baseline) && files > baseline
    requires Polling(world, log + [Counted(files)], from, t)
    ensures Polled(world, log + [Counted(files)] + [Completed(episode)], from, t, episode)
    ensures Confirmed(log + [Counted(files)] + [Completed(episode)], from, baseline, episode)
  {
    var all := log + [Counted(files)] + [Completed(episode)];
    assert all[..|all| - 1] == log + [Counted(files)];
  }

  /** The poll looks at the disk and nothing else; it gives up only after the whole cap. */
  method PollForCompletion(world: World, baseline: nat, episode: nat) returns (outcome: Outcome)
    modifies world`instant, world`now, world`log, world`sleeps
    ensures world.Onward() && world.sleeps <= old(world.sleeps) + 361
    ensures Polled(world, world.log, |old(world.log)|, old(world.instant), episode)
    ensures outcome == Outcome(Success, FSPollConfirmed) || outcome == Outcome(Timeout, FSPollDeadline)
    ensures world.Landed() == old(world.Landed()) + if outcome.kind.Success? then [episode] else []
    ensures outcome.kind.Success? ==>
              && Confirmed(world.log, |old(world.log)|, baseline, episode)
              && world.Exceeds(baseline, old(world.instant), world.instant)
    ensures outcome.kind.Timeout? ==>
              && NothingNew(world.log, |old(world.log)|, |world.log|, baseline)
              && world.now > old(world.now) + COMPLETION_POLL_TIMEOUT
  {
    var deadline := world.now + COMPLETION_POLL_TIMEOUT;
    ghost var from, t := |world.log|, world.instant;
    while true
      invariant world.Onward() && old(world.sleeps) <= world.sleeps <= old(world.sleeps) + 361
      invariant world.now >= old(world.now) + (world.sleeps - old(world.sleeps)) * COMPLETION_POLL_INTERVAL
      invariant NothingNew(world.log, from, |world.log|, baseline) && world.Landed() == old(world.Landed())
      invariant world.instant - t == |world.log| - from == 2 * (world.sleeps - old(world.sleeps))
      invariant Polling(world, world.log, from, t)
      decreases deadline - world.now
    {
      ghost var before := world.log;
      var files := world.Count();
      PollingNext(world, before, from, t, baseline, Counted(files));
      if files > baseline {
        PollConfirms(world, before, from, t, baseline, episode, files);
        world.Complete(episode);
        return Outcome(Success, FSPollConfirmed);
      }
      if world.now > deadline {
        return Outcome(Timeout, FSPollDeadline);
      }
      PollingNext(world, world.log, from, t, baseline, Slept(COMPLETION_POLL_INTERVAL));
      world.Sleep(COMPLETION_POLL_INTERVAL);
    }
  }

  /** What the disk said and what was done to JDownloader in log[from..] fit the attempt's outcome. */
  ghost predicate SoundAttempt(log: seq<Event>, from: nat, baseline: nat, episode: nat, isFirst: bool, outcome: Outcome) {
    && AttemptExit(outcome.exit) && outcome.kind == KindOf(outcome.exit)
    && from <= |log|
    && (RemovalExit(outcome.exit) ==> RemovedLast(log, from, outcome.exit, isFirst))
    && Explained(log, outcome.exit, isFirst)
    && (if outcome.kind.Success? then Confirmed(log, from, baseline, episode) else NothingNew(log, from, |log|, baseline))
  }

  lemma SoundLater(log: seq<Event>, from: nat, mid: nat, baseline: nat, episode: nat, isFirst: bool, outcome: Outcome)
    requires from <= mid <= |log| && NothingNew(log, from, mid, baseline)
    requires SoundAttempt(log, mid, baseline, episode, isFirst, outcome)
    ensures SoundAttempt(log, from, baseline, episode, isFirst, outcome)
  {
    NothingNewBefore(log, from, mid, baseline, episode);
  }

  /** The poll was entered because something vouched for the transfer or the detect phase is off, and it is the
      rest of the log. */
  ghost predicate PolledLast(world: World, log: seq<Event>, from: nat, episode: nat) {
    exists poll, t | from <= poll < |log| ::
      Polled(world, log, poll, t, episode) && (world.detectPhase ==> poll > from && Vouches(log[poll - 1]))
  }

  /** The grace: an outcome when it or the question after it ends the attempt, nothing when the poll is to decide. */
  method WatchGrace(world: World, baseline: nat, episode: nat, isFirst: bool, attemptStart: int) returns (outcome: Option<Outcome>)
    modifies world`instant, world`now, world`log, world`queries, world`removals, world`sleeps
    ensures world.Onward()
    ensures outcome.Some? ==>
              && TransferEnds(world, old(world.instant), baseline, isFirst, outcome.value.exit)
              && SoundAttempt(world.log, |old(world.log)|, baseline, episode, isFirst, outcome.value)
              && outcome.value.exit !in {FSPollConfirmed, FSPollDeadline}
              && world.Landed() == old(world.Landed()) + (if outcome.value.kind.Success? then [episode] else [])
              && (outcome.value.kind.Success? ==> world.Exceeds(baseline, old(world.instant), world.instant))
              && world.removals == old(world.removals) + (if RemovalExit(outcome.value.exit) then 1 else 0)
    ensures outcome.None? ==>
              && TransferEnds(world, old(world.instant), baseline, isFirst, FSPollConfirmed)
              && TransferEnds(world, old(world.instant), baseline, isFirst, FSPollDeadline)
              && NothingNew(world.log, |old(world.log)|, |world.log|, baseline)
              && world.Landed() == old(world.Landed()) && world.removals == old(world.removals)
              && (world.detectPhase ==> |world.log| > |old(world.log)| && Vouches(world.log[|world.log| - 1]))
    ensures world.queries <= old(world.queries) + 1 && world.sleeps <= old(world.sleeps) + PROBES
  {
    var started, probes := DetectDownloadStartPhase(world, baseline, attemptStart);
    if LandedDuringGrace(probes) {
      LandingConfirms(world.log, |old(world.log)|, baseline, episode, isFirst);
      world.Complete(episode);
      return Some(Outcome(Success, GraceDiskConfirmed));
    }
    if started {
      return None;
    }
    assert world.instant == old(world.instant) + 3 * PROBES;
    ghost var before := world.log;
    outcome := EvaluateJDAfterGrace(world, isFirst);
    NoLooks(before, world.log, |old(world.log)|, baseline);
    if outcome.Some? {
      GraceExitSound(world, old(world.instant) + 3 * PROBES, isFirst, outcome.value.exit);
      QuietEndSound(world.log, |old(world.log)|, |before|, baseline, episode, isFirst, outcome.value);
    }
  }

  /** A look that found more than the baseline, and the completion after it, make a success. */
  lemma LandingConfirms(log: seq<Event>, from: nat, baseline: nat, episode: nat, isFirst: bool)
    requires from < |log| && log[|log| - 1].Counted? && log[|log| - 1].files > baseline
    requires NothingNew(log, from, |log| - 1, baseline)
    ensures SoundAttempt(log + [Completed(episode)], from, baseline, episode, isFirst, Outcome(Success, GraceDiskConfirmed))
  {
    assert NothingNew(log + [Completed(episode)], from, |log| - 1, baseline);
  }

  lemma QuietEndSound(log: seq<Event>, from: nat, mid: nat, baseline: nat, episode: nat, isFirst: bool, outcome: Outcome)
    requires from <= mid <= |log| && NothingNew(log, from, |log|, baseline)
    requires AttemptExit(outcome.exit) && !DiskExit(outcome.exit) && outcome.kind == KindOf(outcome.exit)
    requires RemovalExit(outcome.exit) ==> RemovedLast(log, mid, outcome.exit, isFirst)
    requires Explained(log, outcome.exit, isFirst)
    ensures SoundAttempt(log, from, baseline, episode, isFirst, outcome)
  {
  }

  lemma GraceExitSound(world: World, t: nat, isFirst: bool, exit: Exit)
    requires GraceEnds(world, t, isFirst, exit)
    ensures AttemptExit(exit) && !DiskExit(exit) && exit !in {FSPollConfirmed, FSPollDeadline, PrecheckDead}
    ensures !AliveAt(world, t) && (RemovalExit(exit) <==> Costs(world, t, isFirst))
  {
  }

  /** From the grace on: the disk is watched, JDownloader is asked at most once more, and the poll decides. */
  method WatchTransfer(world: World, baseline: nat, episode: nat, isFirst: bool, attemptStart: int) returns (outcome: Outcome)
    modifies world`instant, world`now, world`log, world`queries, world`removals, world`sleeps
    ensures world.Onward()
    ensures TransferEnds(world, old(world.instant), baseline, isFirst, outcome.exit)
    ensures SoundAttempt(world.log, |old(world.log)|, baseline, episode, isFirst, outcome)
    ensures world.queries <= old(world.queries) + 1 && world.sleeps <= old(world.sleeps) + PROBES + 361
    ensures world.removals == old(world.removals) + if RemovalExit(outcome.exit) then 1 else 0
    ensures world.Landed() == old(world.Landed()) + if outcome.kind.Success? then [episode] else []
    ensures outcome.kind.Success? ==> world.Exceeds(baseline, old(world.instant), world.instant)
    ensures outcome.exit in {FSPollConfirmed, FSPollDeadline} ==> PolledLast(world, world.log, |old(world.log)|, episode)
    ensures outcome.exit == FSPollDeadline ==> world.now > old(world.now) + 1_800_000
  {
    var early := WatchGrace(world, baseline, episode, isFirst, attemptStart);
    if early.Some? {
      return early.value;
    }
    ghost var poll, t := world.log, world.instant;
    outcome := PollForCompletion(world, baseline, episode);
    NothingNewKept(poll, world.log, |old(world.log)|, baseline);
    NothingNewBefore(world.log, |old(world.log)|, |poll|, baseline, episode);
    assert Polled(world, world.log, |poll|, t, episode);
  }

  /** At most two questions and one removal; a success is a look that found more than the baseline, and only that.
      Where the attempt ends is a matter of what the folder and JDownloader answer when they are asked. */
  method AwaitHosterOutcome(world: World, baseline: nat, episode: nat, isFirst: bool) returns (outcome: Outcome)
    modifies world`instant, world`now, world`log, world`queries, world`removals, world`sleeps
    ensures world.Onward()
    ensures AttemptEnds(world, old(world.instant), baseline, isFirst, outcome.exit)
    ensures SoundAttempt(world.log, |old(world.log)|, baseline, episode, isFirst, outcome)
    ensures world.queries <= old(world.queries) + 2 && world.sleeps <= old(world.sleeps) + 12 + 361
    ensures world.removals == old(world.removals) + if LosesPackages(world, old(world.instant), baseline, isFirst) then 1 else 0
    ensures world.removals == old(world.removals) + if RemovalExit(outcome.exit) then 1 else 0
    ensures world.Landed() == old(world.Landed()) + if outcome.kind.Success? then [episode] else []
    ensures outcome.kind.Success? ==> world.Exceeds(baseline, old(world.instant), world.instant)
    ensures outcome.exit in {FSPollConfirmed, FSPollDeadline} ==> PolledLast(world, world.log, |old(world.log)|, episode)
    ensures outcome.exit == FSPollDeadline ==> world.now > old(world.now) + 1_800_000
  {
    var attemptStart := world.now;
    if !world.hasCounter {
      return Outcome(Timeout, CounterUnavailable);
    }
    var files := world.Count();
    if files > baseline {
      world.Complete(episode);
      return Outcome(Success, DiskAheadAtEntry);
    }
    ghost var looked := world.log;
    var dead := JDPreCheckIsDead(world);
    NoLooks(looked, world.log, |old(world.log)|, baseline);
    if dead {
      return Outcome(DeadHoster, PrecheckDead);
    }
    ghost var asked := world.log;
    outcome := WatchTransfer(world, baseline, episode, isFirst, attemptStart);
    NothingNewKept(asked, world.log, |old(world.log)|, baseline);
    SoundLater(world.log, |old(world.log)|, |asked|, baseline, episode, isFirst, outcome);
    RemovalsExactly(world, old(world.instant), baseline, isFirst, outcome.exit);
  }

  // ---------------------------------------------------------------- when packages are removed

  lemma GraceEndDetermined(world: World, t: nat, isFirst: bool, a: Exit, b: Exit)
    requires GraceEnds(world, t, isFirst, a) && GraceEnds(world, t, isFirst, b)
    ensures a == b
  {
  }

  /** What the outside answers determines where an attempt ends, but for the clock that the completion poll runs
      against. */
  lemma ExitDetermined(world: World, t: nat, baseline: nat, isFirst: bool, a: Exit, b: Exit)
    requires AttemptEnds(world, t, baseline, isFirst, a) && AttemptEnds(world, t, baseline, isFirst, b)
    ensures a == b || (a in {FSPollConfirmed, FSPollDeadline} && b in {FSPollConfirmed, FSPollDeadline})
  {
    var s := GraceStart(world, t);
    if !world.hasCounter {
    } else if world.Files(t) > baseline {
    } else if DeadAt(world, t + 1) {
    } else if LandsInGrace(world, baseline, s) {
    } else if SilentGrace(world, baseline, s) && !AliveAt(world, s + 3 * PROBES) {
      GraceEndDetermined(world, s + 3 * PROBES, isFirst, a, b);
    }
  }

  lemma LandedIsNotSilent(world: World, baseline: nat, s: nat)
    requires LandsInGrace(world, baseline, s)
    ensures !SilentGrace(world, baseline, s)
  {
  }

  /** An attempt ends at one of the exits that remove packages exactly when JDownloader called the destination dead
      beforehand, or the grace was silent and the answer after it costs the packages. */
  lemma RemovalsExactly(world: World, t: nat, baseline: nat, isFirst: bool, exit: Exit)
    requires AttemptEnds(world, t, baseline, isFirst, exit)
    ensures RemovalExit(exit) <==> LosesPackages(world, t, baseline, isFirst)
  {
    if LandsInGrace(world, baseline, GraceStart(world, t)) {
      LandedIsNotSilent(world, baseline, GraceStart(world, t));
    }
  }

  /** A first hoster whose link JDownloader reports finished, with nothing alive beside it and no episode in the
      folder yet, is called dead after the grace and loses its packages. */
  method FinishedWorkIsRemoved(episode: nat, drift: nat -> nat, now: int) returns (outcome: Outcome, removals: nat)
    ensures outcome == Outcome(DeadHoster, GraceNoSignalFirst) && removals == 1
  {
    var finished := DestinationStatus(true, 0, 0, [], [LinkSignal(true, false)]);
    var world := new World(true, true, true, t => 0, t => false, t => Some(finished), t => true, t => false, drift, now);
    assert !Alive(finished) && AnyLinkFinished(finished) by { assert finished.links[0].finished; }
    outcome := AwaitHosterOutcome(world, 0, episode, true);
    removals := world.removals;
  }
}
