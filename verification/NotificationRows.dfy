/** The rows a notification carries (internal/download/service_notification_rows.go,
    internal/desktop/app_season_notification_rows.go) and the badge that counts what they stand for
    (internal/desktop/app_notification_center_projection.go). */
module NotificationRows {
  import opened Basics
  import opened DownloadPorts
  import opened EpisodePipeline

  const RUN_DETAIL_ROWS_LIMIT: nat := 50
  const SEASON_NAMES_SHOWN: nat := 5

  datatype Subject = NoSubject | Anime(anime: nat) | Selected(id: string) | Season(name: string)

  datatype RowStatus =
    | FailedRow | ManualRow | DownloadedRow | SkippedRow | UpToDateRow | CheckedRow | QueuedRow | SummaryRow | NewRow

  datatype DetailRow = DetailRow(subject: Subject, status: RowStatus, collapsed: int)

  // ---------------------------------------------------------------- the badge

  /** What the row at the head of `rows` adds to the badge: itself, or what it stands for beyond the rows below. */
  function Weight(rows: seq<DetailRow>): int
    requires rows != []
  {
    if rows[0].collapsed == 0 then 1 else Max(rows[0].collapsed - (|rows| - 1), 0)
  }

  function Badge(rows: seq<DetailRow>): int {
    if rows == [] then 0 else Weight(rows) + Badge(rows[1..])
  }

  method CountNotificationSubjects(rows: seq<DetailRow>) returns (total: int)
    ensures total == Badge(rows)
  {
    total := 0;
    for i := 0 to |rows|
      invariant total + Badge(rows[i..]) == Badge(rows)
    {
      assert rows[i..][1..] == rows[i + 1..];
      if rows[i].collapsed == 0 {
        total := total + 1;
      } else {
        total := total + Max(rows[i].collapsed - (|rows| - i - 1), 0);
      }
    }
  }

  ghost predicate Plain(rows: seq<DetailRow>) {
    forall i | 0 <= i < |rows| :: rows[i].collapsed == 0
  }

  /** Rows that name one thing each count one each, whatever follows. */
  lemma {:induction false} PlainCounts(rows: seq<DetailRow>, rest: seq<DetailRow>)
    requires Plain(rows)
    ensures Badge(rows + rest) == |rows| + Badge(rest)
  {
    if rows == [] {
      assert rows + rest == rest;
    } else {
      assert (rows + rest)[1..] == rows[1..] + rest;
      PlainCounts(rows[1..], rest);
    }
  }

  /** A heading over plain rows makes up for exactly what the record leaves out. */
  lemma HeadingCounts(above: seq<DetailRow>, heading: DetailRow, below: seq<DetailRow>)
    requires Plain(above) && Plain(below) && heading.collapsed >= |below| && heading.collapsed > 0
    ensures Badge(above + [heading] + below) == |above| + heading.collapsed
  {
    PlainCounts(above, [heading] + below);
    assert above + [heading] + below == above + ([heading] + below);
    assert ([heading] + below)[1..] == below;
    PlainCounts(below, []);
    assert below + [] == below;
  }

  // ---------------------------------------------------------------- one anime's row

  predicate IsUneventful(o: AnimeOutcome) {
    !o.failed && |o.manualLinks| == 0 && o.downloaded == 0 && o.found == 0
  }

  /** Quiet is exactly skipped or already current: nothing that found an episode or failed is ever folded away. */
  lemma QuietMeans(o: AnimeOutcome)
    requires Whole(o)
    ensures IsUneventful(o) <==> o.skipped || o.upToDate
  {
  }

  function OutcomeRowStatus(o: AnimeOutcome): RowStatus {
    if o.failed then FailedRow
    else if |o.manualLinks| > 0 then ManualRow
    else if o.downloaded > 0 then DownloadedRow
    else if o.skipped then SkippedRow
    else if o.upToDate then UpToDateRow
    else CheckedRow
  }

  /** The word of a row, exactly: what went wrong or needs a hand comes first, then what landed, then why nothing was
      to be done. */
  lemma RowWords(o: AnimeOutcome)
    requires Whole(o)
    ensures OutcomeRowStatus(o) == FailedRow <==> o.failed
    ensures OutcomeRowStatus(o) == ManualRow <==> o.manualLinks != []
    ensures OutcomeRowStatus(o) == DownloadedRow <==> o.downloaded > 0 && !o.failed && o.manualLinks == []
    ensures OutcomeRowStatus(o) == SkippedRow <==> o.skipped
    ensures OutcomeRowStatus(o) == UpToDateRow <==> o.upToDate
  {
  }

  /** On outcomes the pipeline produces, the plain word "checked" is left for the anime a stop cut short: episodes
      found, none landed, failed or offered. */
  lemma CheckedMeansCutShort(o: AnimeOutcome)
    requires Whole(o)
    ensures OutcomeRowStatus(o) == CheckedRow <==>
            o.found > 0 && o.downloaded == 0 && o.failedEpisodes == 0 && o.manualLinks == []
  {
  }

  function OutcomeRow(o: AnimeOutcome): DetailRow {
    DetailRow(Anime(o.anime), OutcomeRowStatus(o), 0)
  }

  // ---------------------------------------------------------------- "Episodes a-b"

  datatype Phrase = OneEpisode(episode: nat) | EpisodeRange(from: nat, to: nat) | EpisodeCount(count: nat)

  function DownloadedEpisodesPhrase(o: AnimeOutcome): Phrase {
    var contiguous := o.first > 0 && o.last - o.first + 1 == o.downloaded;
    if contiguous && o.downloaded == 1 then OneEpisode(o.first)
    else if contiguous then EpisodeRange(o.first, o.last)
    else EpisodeCount(o.downloaded)
  }

  /** The episodes a..b in order. */
  function Interval(a: nat, b: nat): (s: seq<nat>)
    requires a <= b
    ensures |s| == b - a + 1
  {
    seq(b - a + 1, i requires 0 <= i <= b - a => a + i)
  }

  lemma {:induction false} AscendingGrows(s: seq<nat>, i: nat, j: nat)
    requires Ascending(s) && i <= j < |s|
    ensures s[j] >= s[i] + (j - i)
    decreases j
  {
    if i < j {
      AscendingGrows(s, i, j - 1);
    }
  }

  /** As many strictly rising numbers as fit between the ends leave no gap. */
  lemma NoRoomForGaps(s: seq<nat>)
    requires Ascending(s) && s != []
    ensures s[0] <= s[|s| - 1]
    ensures |s| == s[|s| - 1] - s[0] + 1 <==> s == Interval(s[0], s[|s| - 1])
  {
    AscendingGrows(s, 0, |s| - 1);
    if |s| == s[|s| - 1] - s[0] + 1 {
      forall i | 0 <= i < |s| ensures s[i] == s[0] + i {
        AscendingGrows(s, 0, i);
        AscendingGrows(s, i, |s| - 1);
      }
    }
  }

  /** The row names a range exactly when the run landed all of it and nothing else; otherwise it says how many. */
  lemma PhraseIsExact(o: AnimeOutcome, landed: seq<nat>)
    requires Brackets(o, landed) && landed != []
    ensures match DownloadedEpisodesPhrase(o)
            case OneEpisode(episode) => landed == [episode]
            case EpisodeRange(from, to) => from < to && landed == Interval(from, to)
            case EpisodeCount(count) => count == |landed| && landed != Interval(landed[0], Max(landed[0], landed[|landed| - 1]))
  {
    NoRoomForGaps(landed);
  }

  /** What a phrase claims of the episodes that landed, in order. */
  ghost predicate Claims(phrase: Phrase, landed: seq<nat>) {
    match phrase
    case OneEpisode(episode) => landed == [episode]
    case EpisodeRange(from, to) => from < to && landed == Interval(from, to)
    case EpisodeCount(count) => count == |landed| && !(exists from, to | from <= to :: landed == Interval(from, to))
  }

  lemma PhraseClaims(o: AnimeOutcome, landed: seq<nat>)
    requires Brackets(o, landed) && landed != []
    ensures Claims(DownloadedEpisodesPhrase(o), landed)
  {
    PhraseIsExact(o, landed);
    if from, to :| from <= to && landed == Interval(from, to) {
      assert landed[0] == from && landed[|landed| - 1] == to;
    }
  }

  /** One anime's run and the phrase its row carries: the phrase says exactly which episodes the run completed. */
  method ProcessAndPhrase(world: World, journal: Journal, gate: JDGate, source: Source, c: Candidate)
    returns (outcome: AnimeOutcome, phrase: Phrase)
    requires world.FolderNeverShrinks()
    modifies world`instant, world`now, world`log, world`queries, world`removals, world`sleeps,
             journal`ledger, journal`deltas, gate
    ensures old(world.log) <= world.log
    ensures var landed := CompletedIn(world.log[|old(world.log)|..]);
            && outcome.downloaded == |landed|
            && (OutcomeRowStatus(outcome) == DownloadedRow ==> landed != [])
            && (landed != [] ==> Claims(phrase, landed))
  {
    ghost var landed, ends;
    outcome, landed, ends := ProcessAnime(world, journal, gate, source, c);
    phrase := DownloadedEpisodesPhrase(outcome);
    if landed != [] {
      PhraseClaims(outcome, landed);
    }
  }

  // ---------------------------------------------------------------- a finished run

  function Where(outcomes: seq<AnimeOutcome>, uneventful: bool): seq<AnimeOutcome> {
    if outcomes == [] then []
    else
      var rest := Where(outcomes[..|outcomes| - 1], uneventful);
      var last := outcomes[|outcomes| - 1];
      if IsUneventful(last) == uneventful then rest + [last] else rest
  }

  lemma {:induction false} PartitionPermutes(outcomes: seq<AnimeOutcome>)
    ensures |Where(outcomes, false)| + |Where(outcomes, true)| == |outcomes|
    ensures multiset(Where(outcomes, false)) + multiset(Where(outcomes, true)) == multiset(outcomes)
  {
    if outcomes != [] {
      var init, last := outcomes[..|outcomes| - 1], outcomes[|outcomes| - 1];
      PartitionPermutes(init);
      assert outcomes == init + [last];
    }
  }

  function UneventfulFn(uneventful: bool): AnimeOutcome -> bool {
    (o: AnimeOutcome) => uneventful == (!o.failed && o.manualLinks == [] && o.downloaded == 0 && o.found == 0)
  }

  /** The eventful outcomes, and the quiet ones, are what their name says, in the order collected. */
  lemma {:induction false} WherePicks(outcomes: seq<AnimeOutcome>, uneventful: bool)
    ensures Picks(Where(outcomes, uneventful), outcomes, UneventfulFn(uneventful), Itself())
  {
    if outcomes == [] {
      PicksNothing(UneventfulFn(uneventful), Itself<AnimeOutcome>());
    } else {
      var init, last := outcomes[..|outcomes| - 1], outcomes[|outcomes| - 1];
      assert outcomes == init + [last];
      WherePicks(init, uneventful);
      var keeps, rest := UneventfulFn(uneventful), Where(init, uneventful);
      PicksSnoc(rest, init, keeps, Itself(), last);
      assert keeps(last) <==> IsUneventful(last) == uneventful;
      assert Where(outcomes, uneventful) == rest + if keeps(last) then [last] else [];
      assert Itself<AnimeOutcome>()(last) == last;
    }
  }

  method PartitionRunOutcomes(outcomes: seq<AnimeOutcome>) returns (eventful: seq<AnimeOutcome>, quiet: seq<AnimeOutcome>)
    ensures eventful == Where(outcomes, false) && quiet == Where(outcomes, true)
  {
    eventful, quiet := [], [];
    for i := 0 to |outcomes|
      invariant eventful == Where(outcomes[..i], false) && quiet == Where(outcomes[..i], true)
    {
      assert outcomes[..i + 1][..i] == outcomes[..i];
      if IsUneventful(outcomes[i]) {
        quiet := quiet + [outcomes[i]];
      } else {
        eventful := eventful + [outcomes[i]];
      }
    }
    assert outcomes[..|outcomes|] == outcomes;
  }

  /** How many eventful and quiet animes are named. */
  function NamedEventful(eventful: nat): (n: nat) {
    Min(eventful, RUN_DETAIL_ROWS_LIMIT)
  }

  function NamedQuiet(eventful: nat, quiet: nat): (n: nat) {
    Min(quiet, RUN_DETAIL_ROWS_LIMIT - NamedEventful(eventful))
  }

  function SummaryOf(listed: nat, unlisted: nat): DetailRow {
    DetailRow(NoSubject, SummaryRow, listed + unlisted)
  }

  function Rows(outcomes: seq<AnimeOutcome>): (rows: seq<DetailRow>)
    ensures |rows| == |outcomes|
  {
    seq(|outcomes|, i requires 0 <= i < |outcomes| => OutcomeRow(outcomes[i]))
  }

  /** The record of a run: what needs attention, then at most one heading, then the quiet ones below it. */
  ghost predicate RunLayout(rows: seq<DetailRow>, outcomes: seq<AnimeOutcome>) {
    var eventful, quiet := Where(outcomes, false), Where(outcomes, true);
    var e, q := NamedEventful(|eventful|), NamedQuiet(|eventful|, |quiet|);
    var unlisted := |eventful| - e + |quiet| - q;
    rows == Rows(eventful[..e]) + (if q + unlisted > 0 then [SummaryOf(q, unlisted)] else []) + Rows(quiet[..q])
  }

  method BuildRunDetailRows(outcomes: seq<AnimeOutcome>) returns (rows: seq<DetailRow>)
    ensures RunLayout(rows, outcomes)
  {
    var eventful, quiet := PartitionRunOutcomes(outcomes);
    var namedEventful := eventful[..NamedEventful(|eventful|)];
    var namedQuiet := quiet[..NamedQuiet(|eventful|, |quiet|)];
    var unlisted := (|eventful| - |namedEventful|) + (|quiet| - |namedQuiet|);
    rows := [];
    for i := 0 to |namedEventful|
      invariant rows == Rows(namedEventful[..i])
    {
      rows := rows + [OutcomeRow(namedEventful[i])];
    }
    if |namedQuiet| + unlisted > 0 {
      rows := rows + [SummaryOf(|namedQuiet|, unlisted)];
    }
    ghost var above := rows;
    for i := 0 to |namedQuiet|
      invariant rows == above + Rows(namedQuiet[..i])
    {
      rows := rows + [OutcomeRow(namedQuiet[i])];
    }
    assert namedEventful[..|namedEventful|] == namedEventful && namedQuiet[..|namedQuiet|] == namedQuiet;
  }

  /** The badge of a finished run counts every anime the run touched exactly once. */
  lemma RunBadgeCountsAnimes(rows: seq<DetailRow>, outcomes: seq<AnimeOutcome>)
    requires RunLayout(rows, outcomes)
    ensures Badge(rows) == |outcomes| && |rows| <= RUN_DETAIL_ROWS_LIMIT + 1
  {
    PartitionPermutes(outcomes);
    var eventful, quiet := Where(outcomes, false), Where(outcomes, true);
    var e, q := NamedEventful(|eventful|), NamedQuiet(|eventful|, |quiet|);
    var unlisted := |eventful| - e + |quiet| - q;
    if q + unlisted > 0 {
      HeadingCounts(Rows(eventful[..e]), SummaryOf(q, unlisted), Rows(quiet[..q]));
    } else {
      assert rows == Rows(eventful[..e]) + [];
      PlainCounts(Rows(eventful[..e]), []);
    }
  }

  /** The animes named, in row order. */
  function NameIn(row: DetailRow): seq<nat> {
    if row.subject.Anime? then [row.subject.anime] else []
  }

  function Named(rows: seq<DetailRow>): seq<nat> {
    if rows == [] then [] else NameIn(rows[0]) + Named(rows[1..])
  }

  lemma {:induction false} NamedConcat(a: seq<DetailRow>, b: seq<DetailRow>)
    ensures Named(a + b) == Named(a) + Named(b)
  {
    if a == [] {
      assert a + b == b;
    } else {
      assert (a + b)[1..] == a[1..] + b;
      NamedConcat(a[1..], b);
      assert (NameIn(a[0]) + Named(a[1..])) + Named(b) == NameIn(a[0]) + (Named(a[1..]) + Named(b));
    }
  }

  function Ids(outcomes: seq<AnimeOutcome>): seq<nat> {
    if outcomes == [] then [] else [outcomes[0].anime] + Ids(outcomes[1..])
  }

  lemma {:induction false} RowsName(outcomes: seq<AnimeOutcome>)
    ensures Named(Rows(outcomes)) == Ids(outcomes)
  {
    if outcomes != [] {
      assert Rows(outcomes)[1..] == Rows(outcomes[1..]);
      RowsName(outcomes[1..]);
    }
  }

  lemma HeadingNamesNobody(heading: seq<DetailRow>)
    requires heading == [] || (|heading| == 1 && heading[0].subject.NoSubject?)
    ensures Named(heading) == []
  {
  }

  lemma NamedOfThree(a: seq<DetailRow>, b: seq<DetailRow>, c: seq<DetailRow>)
    ensures Named(a + b + c) == Named(a) + Named(b) + Named(c)
  {
    NamedConcat(a + b, c);
    NamedConcat(a, b);
  }

  lemma LaidOutNames(above: seq<AnimeOutcome>, heading: seq<DetailRow>, below: seq<AnimeOutcome>)
    requires heading == [] || (|heading| == 1 && heading[0].subject.NoSubject?)
    ensures Named(Rows(above) + heading + Rows(below)) == Ids(above) + Ids(below)
  {
    NamedOfThree(Rows(above), heading, Rows(below));
    HeadingNamesNobody(heading);
    RowsName(above);
    RowsName(below);
    NothingBetween(Ids(above), Ids(below));
  }

  lemma NothingBetween(a: seq<nat>, b: seq<nat>)
    ensures a + [] + b == a + b
  {
    assert a + [] == a;
  }

  /** Attention first: the eventful animes are named in order up to the limit, the quiet ones only in what is left. */
  lemma AttentionFirst(rows: seq<DetailRow>, outcomes: seq<AnimeOutcome>)
    requires RunLayout(rows, outcomes)
    ensures var eventful, quiet := Where(outcomes, false), Where(outcomes, true);
            var e, q := NamedEventful(|eventful|), NamedQuiet(|eventful|, |quiet|);
            && Named(rows) == Ids(eventful[..e]) + Ids(quiet[..q])
            && (q > 0 ==> e == |eventful|) && e + q == Min(|outcomes|, RUN_DETAIL_ROWS_LIMIT)
            && (|outcomes| <= RUN_DETAIL_ROWS_LIMIT ==> e == |eventful| && q == |quiet|)
  {
    PartitionPermutes(outcomes);
    var eventful, quiet := Where(outcomes, false), Where(outcomes, true);
    var e, q := NamedEventful(|eventful|), NamedQuiet(|eventful|, |quiet|);
    var unlisted := |eventful| - e + |quiet| - q;
    LaidOutNames(eventful[..e], if q + unlisted > 0 then [SummaryOf(q, unlisted)] else [], quiet[..q]);
  }

  // ---------------------------------------------------------------- a run about to start

  datatype SelectedAnime = SelectedAnime(id: string, name: string)

  function Addressable(animes: seq<SelectedAnime>): seq<SelectedAnime> {
    if animes == [] then []
    else if animes[|animes| - 1].id == "" then Addressable(animes[..|animes| - 1])
    else Addressable(animes[..|animes| - 1]) + [animes[|animes| - 1]]
  }

  function HasIdFn(): SelectedAnime -> bool {
    (a: SelectedAnime) => a.id != ""
  }

  /** The animes with an id, in the order selected. */
  lemma {:induction false} AddressablePicks(animes: seq<SelectedAnime>)
    ensures Picks(Addressable(animes), animes, HasIdFn(), Itself())
  {
    if animes == [] {
      PicksNothing(HasIdFn(), Itself<SelectedAnime>());
    } else {
      var init, last := animes[..|animes| - 1], animes[|animes| - 1];
      assert animes == init + [last];
      AddressablePicks(init);
      PicksSnoc(Addressable(init), init, HasIdFn(), Itself(), last);
      assert Itself<SelectedAnime>()(last) == last;
      assert Addressable(animes) == Addressable(init) + if HasIdFn()(last) then [last] else [];
    }
  }

  method AddressableAnimes(animes: seq<SelectedAnime>) returns (addressable: seq<SelectedAnime>)
    ensures addressable == Addressable(animes)
  {
    addressable := [];
    for i := 0 to |animes|
      invariant addressable == Addressable(animes[..i])
    {
      assert animes[..i + 1][..i] == animes[..i];
      if animes[i].id != "" {
        addressable := addressable + [animes[i]];
      }
    }
    assert animes[..|animes|] == animes;
  }

  /** The badge of a run that starts counts the animes that can be addressed, past the limit too. */
  method BuildRunStartedRows(animes: seq<SelectedAnime>) returns (rows: seq<DetailRow>)
    ensures Badge(rows) == |Addressable(animes)| && |rows| <= RUN_DETAIL_ROWS_LIMIT + 1
    ensures forall i | 0 <= i < Min(|Addressable(animes)|, RUN_DETAIL_ROWS_LIMIT) ::
              i < |rows| && rows[i] == DetailRow(Selected(Addressable(animes)[i].id), QueuedRow, 0)
  {
    var addressable := AddressableAnimes(animes);
    var named := addressable[..Min(|addressable|, RUN_DETAIL_ROWS_LIMIT)];
    rows := [];
    for i := 0 to |named|
      invariant |rows| == i && Plain(rows)
      invariant forall k | 0 <= k < i :: rows[k] == DetailRow(Selected(addressable[k].id), QueuedRow, 0)
    {
      rows := rows + [DetailRow(Selected(named[i].id), QueuedRow, 0)];
    }
    var unlisted := |addressable| - |named|;
    if unlisted > 0 {
      HeadingCounts(rows, SummaryOf(0, unlisted), []);
      assert rows + [SummaryOf(0, unlisted)] + [] == rows + [SummaryOf(0, unlisted)];
      rows := rows + [SummaryOf(0, unlisted)];
    } else {
      PlainCounts(rows, []);
      assert rows + [] == rows;
    }
  }

  // ---------------------------------------------------------------- a season batch

  method BuildSeasonAvailableRows(names: seq<string>) returns (rows: seq<DetailRow>)
    ensures Badge(rows) == |names| && |rows| <= SEASON_NAMES_SHOWN + 1
    ensures forall i | 0 <= i < Min(|names|, SEASON_NAMES_SHOWN) ::
              i < |rows| && rows[i] == DetailRow(Season(names[i]), NewRow, 0)
  {
    rows := [];
    var shown := Min(|names|, SEASON_NAMES_SHOWN);
    var collapsed := |names| - shown;
    for i := 0 to shown
      invariant |rows| == i && Plain(rows)
      invariant forall k | 0 <= k < i :: rows[k] == DetailRow(Season(names[k]), NewRow, 0)
    {
      rows := rows + [DetailRow(Season(names[i]), NewRow, 0)];
    }
    if collapsed > 0 {
      var summary := DetailRow(NoSubject, NewRow, collapsed);
      HeadingCounts(rows, summary, []);
      assert rows + [summary] + [] == rows + [summary];
      rows := rows + [summary];
    } else {
      PlainCounts(rows, []);
      assert rows + [] == rows;
    }
  }
}
