/** The two levels of a download agree: the worker of DownloadRun chooses freely where EpisodePipeline asks the
    outside, and whatever ProcessAnime returns is an outcome such a worker can deliver. */
module DownloadRefines {
  import opened EpisodePipeline
  import opened DownloadRun

  lemma {:induction false} RunsOn(limit: int, s: State, steps: seq<Step>, step: Step)
    requires ValidRun(limit, s, steps) && Allowed(limit, After(limit, s, steps), step)
    ensures ValidRun(limit, s, steps + [step])
    ensures After(limit, s, steps + [step]) == Apply(After(limit, s, steps), step)
    decreases |steps|
  {
    if steps == [] {
      assert [step][1..] == [];
    } else {
      assert (steps + [step])[1..] == steps[1..] + [step];
      RunsOn(limit, Apply(s, steps[0]), steps[1..], step);
    }
  }

  /** Worker `w` of a run is exactly `x`, and the gate has answered. */
  ghost predicate Reached(limit: int, start: State, steps: seq<Step>, w: nat, x: Worker, online: bool, channel: seq<AnimeOutcome>) {
    && ValidRun(limit, start, steps)
    && var s := After(limit, start, steps);
       w < |s.workers| && s.workers[w] == x && s.gate.once.Finished? && s.gate.resolved && s.gate.value == online && s.channel == channel
  }

  lemma Acts(limit: int, start: State, steps: seq<Step>, w: nat, x: Worker, online: bool, channel: seq<AnimeOutcome>, m: Move, x': Worker)
    returns (more: seq<Step>)
    requires Reached(limit, start, steps, w, x, online, channel) && Enabled(limit, After(limit, start, steps), w, m)
    requires x' == Next(After(limit, start, steps), w, m).workers[w] && !m.Enter? && !m.Resolve? && !m.Report?
    ensures more == steps + [Act(w, m)]
    ensures Reached(limit, start, more, w, x', online, if m.Deliver? then channel + [x.outcome] else channel)
  {
    more := steps + [Act(w, m)];
    RunsOn(limit, start, steps, Act(w, m));
  }

  /** One episode of the story is one or two moves of the worker. */
  lemma EpisodePlays(limit: int, start: State, steps: seq<Step>, w: nat, x: Worker, online: bool, channel: seq<AnimeOutcome>,
                     end: EpisodeEnd, cursor: nat, latest: nat)
    returns (more: seq<Step>)
    requires Reached(limit, start, steps, w, x, online, channel) && x.pc == Working(cursor, latest) && x.outcome.anime == x.anime
    requires Fits(end, x.anime, cursor, latest, !online)
    ensures Reached(limit, start, more, w,
                    Worker(x.anime, if end.Landed? then Working(end.cursor, latest) else Leaving,
                           Advance(x.outcome, end, cursor + 1), if end.Landed? then x.ending else Ended(end)), online, channel)
  {
    if end.Failing? && !online {
      more := Acts(limit, start, steps, w, x, online, channel, FailSite, Worker(x.anime, Leaving, Advance(x.outcome, end, cursor + 1), Ended(end)));
    } else {
      var judged := x.(pc := Judged(cursor, latest, !online));
      more := Acts(limit, start, steps, w, x, online, channel, Judge, judged);
      var m := match end case Landed(c) => Land(c) case Offered(link) => Offer(link.links) case Failing(failure) => FailHosters(failure);
      assert EndOf(judged, m) == end;
      more := Acts(limit, start, more, w, judged, online, channel, m, Next(After(limit, start, more), w, m).workers[w]);
    }
  }

  /** The worker once the story is told. */
  function Telling(anime: nat, onDisk: nat, latest: nat, ends: seq<EpisodeEnd>): Worker {
    var outcome := Played(anime, onDisk, latest, ends);
    if LastLanded(ends) then Worker(anime, Working(CursorAfter(onDisk, ends), latest), outcome, Unended)
    else Worker(anime, Leaving, outcome, Ended(ends[|ends| - 1]))
  }

  lemma {:induction false} PlayedKeepsAnime(anime: nat, onDisk: nat, latest: nat, ends: seq<EpisodeEnd>)
    ensures Played(anime, onDisk, latest, ends).anime == anime
  {
    if ends != [] {
      PlayedKeepsAnime(anime, onDisk, latest, ends[..|ends| - 1]);
    }
  }

  lemma {:induction false} StoryPlays(limit: int, start: State, steps: seq<Step>, w: nat, anime: nat, online: bool,
                                      channel: seq<AnimeOutcome>, ends: seq<EpisodeEnd>, onDisk: nat, latest: nat)
    returns (more: seq<Step>)
    requires Reached(limit, start, steps, w, Telling(anime, onDisk, latest, []), online, channel)
    requires Story(ends, anime, onDisk, latest, !online)
    ensures Reached(limit, start, more, w, Telling(anime, onDisk, latest, ends), online, channel)
    decreases |ends|
  {
    if ends == [] {
      more := steps;
    } else {
      var init, end := ends[..|ends| - 1], ends[|ends| - 1];
      more := StoryPlays(limit, start, steps, w, anime, online, channel, init, onDisk, latest);
      PlayedKeepsAnime(anime, onDisk, latest, init);
      more := EpisodePlays(limit, start, more, w, Telling(anime, onDisk, latest, init), online, channel, end, CursorAfter(onDisk, init), latest);
    }
  }

  /** A run of one worker, after its first moves: the counters apart, the state is this. */
  ghost predicate Alone(limit: int, anime: nat, steps: seq<Step>, pc: Pc, outcome: AnimeOutcome, gate: Gate) {
    && ValidRun(limit, Init([anime]), steps)
    && var s := After(limit, Init([anime]), steps);
       && |s.workers| == 1 && s.workers[0].anime == anime && s.workers[0].pc == pc && s.workers[0].outcome == outcome
       && s.workers[0].ending == Unended && s.gate == gate && s.channel == []
  }

  lemma AloneActs(limit: int, anime: nat, steps: seq<Step>, pc: Pc, outcome: AnimeOutcome, gate: Gate, m: Move) returns (more: seq<Step>)
    requires Alone(limit, anime, steps, pc, outcome, gate) && !m.Deliver? && !m.Conclude? && !m.Halt? && !m.Complete? && !EndsEpisode(m)
    requires Enabled(limit, After(limit, Init([anime]), steps), 0, m)
    ensures var s, x := After(limit, Init([anime]), steps), Worker(anime, pc, outcome, Unended);
            && more == steps + [Act(0, m)]
            && Alone(limit, anime, more, NextPc(s, x, m), NextOutcome(x, m), NextGate(gate, 0, m))
  {
    more := steps + [Act(0, m)];
    RunsOn(limit, Init([anime]), steps, Act(0, m));
  }

  lemma Launches(limit: int, anime: nat) returns (steps: seq<Step>)
    ensures Alone(limit, anime, steps, Preparing, NothingYet(anime), Gate(Fresh, false, false, 0))
  {
    assert Init([anime]).workers[0] == InitWorker(anime);
    assert Alone(limit, anime, [], Queued, NothingYet(anime), Gate(Fresh, false, false, 0));
    steps := AloneActs(limit, anime, [], Queued, NothingYet(anime), Gate(Fresh, false, false, 0), Acquire);
  }

  lemma Asks(limit: int, anime: nat, onDisk: nat, latest: nat) returns (steps: seq<Step>)
    requires onDisk < latest
    ensures Alone(limit, anime, steps, Resolving(onDisk, latest), NothingYet(anime), Gate(Running(0), false, false, 0))
  {
    var closed := Gate(Fresh, false, false, 0);
    steps := Launches(limit, anime);
    steps := AloneActs(limit, anime, steps, Preparing, NothingYet(anime), closed, Find(onDisk, latest));
    steps := AloneActs(limit, anime, steps, AtGate(onDisk, latest), NothingYet(anime), closed, Enter);
  }

  lemma Learns(limit: int, anime: nat, onDisk: nat, latest: nat, online: bool) returns (steps: seq<Step>)
    requires onDisk < latest
    ensures Alone(limit, anime, steps, Announcing(onDisk, latest), NothingYet(anime), Gate(Finished, true, online, 1))
  {
    var asked := Gate(Running(0), true, online, 1);
    steps := Asks(limit, anime, onDisk, latest);
    steps := AloneActs(limit, anime, steps, Resolving(onDisk, latest), NothingYet(anime), Gate(Running(0), false, false, 0), Resolve(online));
    steps := AloneActs(limit, anime, steps, Reporting(onDisk, latest), NothingYet(anime), asked, Report);
  }

  lemma Announces(limit: int, anime: nat, onDisk: nat, latest: nat, online: bool) returns (steps: seq<Step>)
    requires onDisk < latest
    ensures Reached(limit, Init([anime]), steps, 0, Telling(anime, onDisk, latest, []), online, [])
  {
    steps := Learns(limit, anime, onDisk, latest, online);
    steps := AloneActs(limit, anime, steps, Announcing(onDisk, latest), NothingYet(anime), Gate(Finished, true, online, 1), Announce);
  }

  /** A worker whose story is told, or that is stopped in it, delivers its outcome. */
  lemma Delivers(limit: int, start: State, steps: seq<Step>, w: nat, x: Worker, online: bool) returns (more: seq<Step>)
    requires Reached(limit, start, steps, w, x, online, []) && (x.pc.Working? || x.pc.Leaving?)
    ensures ValidRun(limit, start, more) && After(limit, start, more).channel == [x.outcome]
  {
    more := steps;
    var leaving := x;
    if x.pc.Working? {
      RunsOn(limit, start, steps, Stop);
      more := steps + [Stop];
      var m := if x.pc.current >= x.pc.latest then Complete else Halt;
      leaving := x.(pc := Leaving, ending := if m.Halt? then Halted else CaughtUp);
      more := Acts(limit, start, more, w, x, online, [], m, leaving);
    }
    more := Acts(limit, start, more, w, leaving, online, [], Deliver, leaving.(pc := Delivered));
  }

  /** Whatever ProcessAnime may return, a worker may deliver. */
  lemma OutcomeIsDelivered(limit: int, outcome: AnimeOutcome, c: Candidate, ends: seq<EpisodeEnd>, online: bool) returns (steps: seq<Step>)
    requires Possible(outcome, c, ends, !online)
    ensures ValidRun(limit, Init([c.anime]), steps) && After(limit, Init([c.anime]), steps).channel == [outcome]
  {
    if outcome.found == 0 {
      var why :| outcome == EarlyOutcome(c.anime, why);
      steps := Launches(limit, c.anime);
      steps := EarlyDelivers(limit, c.anime, steps, why);
    } else {
      var latest := c.latest.value;
      var onDisk := latest - outcome.found;
      steps := Announces(limit, c.anime, onDisk, latest, online);
      steps := StoryPlays(limit, Init([c.anime]), steps, 0, c.anime, online, [], ends, onDisk, latest);
      steps := Delivers(limit, Init([c.anime]), steps, 0, Telling(c.anime, onDisk, latest, ends), online);
    }
  }

  lemma EarlyDelivers(limit: int, anime: nat, steps: seq<Step>, why: EarlyEnd) returns (more: seq<Step>)
    requires Alone(limit, anime, steps, Preparing, NothingYet(anime), Gate(Fresh, false, false, 0))
    ensures ValidRun(limit, Init([anime]), more) && After(limit, Init([anime]), more).channel == [EarlyOutcome(anime, why)]
  {
    RunsOn(limit, Init([anime]), steps, Act(0, Conclude(why)));
    more := steps + [Act(0, Conclude(why))];
    RunsOn(limit, Init([anime]), more, Act(0, Deliver));
    more := more + [Act(0, Deliver)];
  }
}
