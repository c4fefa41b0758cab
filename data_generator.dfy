/** Period configuration, chart data generation, period ranges, the timestamp
    parser used for batch grouping, and the shape of processing ids. */
module DataGenerator {
  import opened Types
  import opened Text

  // ---------------------------------------------------------------------------
  // Chart data for a period

  datatype PeriodConfig = PeriodConfig(days: nat, startDate: Day)

  /** `data[period] || data['90d']`. */
  function ConfigFor(p: Period): PeriodConfig {
    match p
    case Last24h => PeriodConfig(1, Date2025(11, 1))
    case Last7d => PeriodConfig(7, Date2025(10, 26))
    case Last30d => PeriodConfig(30, Date2025(10, 3))
    case Last90d => PeriodConfig(90, Date2025(8, 13))
    case Custom => PeriodConfig(90, Date2025(8, 13))
    case Other(_) => PeriodConfig(90, Date2025(8, 13))
  }

  /** The chart covers {1, 7, 30, 90, 90} days; 24h, 7d and 30d end on 1 November
      2025, while 90d, custom and an unknown token run from 13 August to 10 November. */
  lemma ChartWindows(p: Period)
    ensures var c := ConfigFor(p);
      && c.days == (match p
                    case Last24h => 1
                    case Last7d => 7
                    case Last30d => 30
                    case _ => 90)
      && (p.Last24h? || p.Last7d? || p.Last30d? ==> c.startDate + c.days - 1 == Date2025(11, 1))
      && (!(p.Last24h? || p.Last7d? || p.Last30d?) ==>
            c.startDate == Date2025(8, 13) && c.startDate + c.days - 1 == Date2025(11, 10))
  {
  }

  /** Bar value of the indexing meter for one date: 60 credits per MB. */
  function IndexingTotal(files: seq<FileDetail>): (t: real)
    ensures t >= 0.0
  {
    if files == [] then 0.0 else IndexingTotal(files[..|files| - 1]) + IndexingCredits(files[|files| - 1])
  }

  lemma {:induction false} IndexingTotalAppend(a: seq<FileDetail>, b: seq<FileDetail>)
    ensures IndexingTotal(a + b) == IndexingTotal(a) + IndexingTotal(b)
    decreases |b|
  {
    if b == [] {
      assert a + b == a;
    } else {
      assert (a + b)[..|a + b| - 1] == a + b[..|b| - 1];
      IndexingTotalAppend(a, b[..|b| - 1]);
    }
  }

  /** Bar value of the pipeline meter for one date: 0.002 credits per update. */
  function PipelineTotal(files: seq<FileDetail>): real {
    |files| as real * PipelineUpdateCredits
  }

  /** `mockFileDetails[date]` when present, else `{}`. */
  function FixtureEntry(fixture: map<Day, MeterFiles>, date: Day): MeterFiles {
    if date in fixture then fixture[date] else NoMeterFiles
  }

  datatype ConsumptionData = ConsumptionData(
    dates: seq<Day>,
    unstructuredBars: seq<real>,
    pipelineBars: seq<real>,
    fileDetails: DateFeed)

  /** Builds the date list, the feed for those dates and one bar value per date
      and meter. */
  method GenerateMockData(p: Period, fixture: map<Day, MeterFiles>) returns (d: ConsumptionData)
    ensures var c := ConfigFor(p);
      && |d.dates| == c.days
      && forall i :: 0 <= i < |d.dates| ==> d.dates[i] == c.startDate + i
    ensures |d.fileDetails| == |d.dates|
    ensures forall i :: 0 <= i < |d.dates| ==>
      d.fileDetails[i] == (d.dates[i], FixtureEntry(fixture, d.dates[i]))
    ensures |d.unstructuredBars| == |d.dates| && |d.pipelineBars| == |d.dates|
    ensures forall i :: 0 <= i < |d.dates| ==>
      && d.unstructuredBars[i] == IndexingTotal(FilesOf(d.fileDetails[i].1, UnstructuredDataProcessed))
      && d.pipelineBars[i] == PipelineTotal(FilesOf(d.fileDetails[i].1, BatchDataPipeline))
    ensures forall i :: 0 <= i < |d.dates| ==> d.unstructuredBars[i] >= 0.0 && d.pipelineBars[i] >= 0.0
  {
    var config := ConfigFor(p);
    var dates: seq<Day> := [];
    for i := 0 to config.days
      invariant |dates| == i
      invariant forall k :: 0 <= k < i ==> dates[k] == config.startDate + k
    {
      dates := dates + [config.startDate + i];
    }

    var fileDetails: DateFeed := [];
    var unstructuredBars: seq<real> := [];
    var pipelineBars: seq<real> := [];
    for i := 0 to |dates|
      invariant |fileDetails| == i && |unstructuredBars| == i && |pipelineBars| == i
      invariant forall k :: 0 <= k < i ==> fileDetails[k] == (dates[k], FixtureEntry(fixture, dates[k]))
      invariant forall k :: 0 <= k < i ==>
        && unstructuredBars[k] == IndexingTotal(FilesOf(fileDetails[k].1, UnstructuredDataProcessed))
        && pipelineBars[k] == PipelineTotal(FilesOf(fileDetails[k].1, BatchDataPipeline))
    {
      var entry := if dates[i] in fixture then fixture[dates[i]] else NoMeterFiles;
      fileDetails := fileDetails + [(dates[i], entry)];
      var unstructuredFiles := FilesOf(entry, UnstructuredDataProcessed);
      var pipelineFiles := FilesOf(entry, BatchDataPipeline);
      unstructuredBars := unstructuredBars + [IndexingTotal(unstructuredFiles)];
      pipelineBars := pipelineBars + [|pipelineFiles| as real * (2000.0 / 1000000.0)];
    }
    d := ConsumptionData(dates, unstructuredBars, pipelineBars, fileDetails);
  }

  // ---------------------------------------------------------------------------
  // Period ranges ending on the reference day, 1 November 2025

  const Today: Day := Date2025(11, 1)

  function LookbackDays(p: Period): nat {
    match p
    case Last24h => 1
    case Last7d => 7
    case Last30d => 30
    case Last90d => 90
    case _ => 90
  }

  datatype DayRange = DayRange(start: Day, end: Day)

  /** `getPeriodDateRange`: `custom` and an unknown token fall back to 90 days. */
  function GetPeriodDateRange(p: Period): DayRange {
    DayRange(Today - LookbackDays(p), Today)
  }

  /** `isDateInPeriod`: both ends of the range are included, at whole-day granularity. */
  predicate IsDateInPeriod(dateValue: Day, p: Period) {
    var r := GetPeriodDateRange(p);
    r.start <= dateValue && dateValue <= r.end
  }

  /** The range holds exactly the `LookbackDays(p) + 1` days ending today; one day
      outside either end is excluded. */
  lemma PeriodRangeBounds(p: Period)
    ensures IsDateInPeriod(Today, p) && IsDateInPeriod(Today - LookbackDays(p), p)
    ensures !IsDateInPeriod(Today + 1, p) && !IsDateInPeriod(Today - LookbackDays(p) - 1, p)
    ensures forall d :: IsDateInPeriod(d, p) <==> Today - LookbackDays(p) <= d <= Today
    ensures forall d :: IsDateInPeriod(d, Custom) <==> IsDateInPeriod(d, Last90d)
  {
  }

  /** 24h covers 31 October and 1 November; 7d covers 25 October to 1 November. */
  lemma ShortPeriods()
    ensures forall d :: IsDateInPeriod(d, Last24h) <==> d == Date2025(10, 31) || d == Date2025(11, 1)
    ensures forall d :: IsDateInPeriod(d, Last7d) <==> Date2025(10, 25) <= d <= Date2025(11, 1)
  {
  }

  /** Every chart date of 24h, 7d and 30d lies in that period's range, but the 90-day
      chart runs past the reference day: 10 November is charted and not in range. */
  lemma ChartDatesVersusRange(p: Period, i: nat)
    requires i < ConfigFor(p).days
    ensures (p.Last24h? || p.Last7d? || p.Last30d?) ==> IsDateInPeriod(ConfigFor(p).startDate + i, p)
    ensures p.Last90d? && i == 89 ==> !IsDateInPeriod(ConfigFor(p).startDate + i, p)
  {
  }

  // ---------------------------------------------------------------------------
  // The timestamp pattern /(\w+)\s+(\d+)\s+(\d+):(\d+)/, searched leftmost-first

  datatype CharClass = Word | Space | Digit

  predicate InClass(c: char, cls: CharClass) {
    match cls
    case Word => IsWordChar(c)
    case Space => IsSpaceChar(c)
    case Digit => IsDigitChar(c)
  }

  /** The end of the longest run of `cls` characters starting at `i`. */
  function RunEnd(s: string, i: nat, cls: CharClass): (j: nat)
    requires i <= |s|
    ensures i <= j <= |s|
    ensures j == |s| || !InClass(s[j], cls)
    decreases |s| - i
  {
    if i < |s| && InClass(s[i], cls) then RunEnd(s, i + 1, cls) else i
  }

  /** Every character of the run is of the class. */
  lemma {:induction false} RunEndSpan(s: string, i: nat, cls: CharClass)
    requires i <= |s|
    ensures forall k :: i <= k < RunEnd(s, i, cls) ==> InClass(s[k], cls)
    decreases |s| - i
  {
    if i < |s| && InClass(s[i], cls) { RunEndSpan(s, i + 1, cls); }
  }

  /** A run of word characters, as a string. */
  lemma WordRun(s: string, i: nat)
    requires i <= |s|
    ensures AllWordChars(s[i..RunEnd(s, i, Word)])
  {
    RunEndSpan(s, i, Word);
    var t := s[i..RunEnd(s, i, Word)];
    forall k | 0 <= k < |t| ensures IsWordChar(t[k]) {
      assert t[k] == s[i + k];
    }
  }

  /** A run of digits, as a string. */
  lemma DigitRun(s: string, i: nat)
    requires i <= |s|
    ensures AllDigits(s[i..RunEnd(s, i, Digit)])
  {
    RunEndSpan(s, i, Digit);
    var t := s[i..RunEnd(s, i, Digit)];
    forall k | 0 <= k < |t| ensures IsDigitChar(t[k]) {
      assert t[k] == s[i + k];
    }
  }

  datatype TimeMatch = TimeMatch(month: string, day: string, hour: string, minute: string)

  predicate WellFormedMatch(m: TimeMatch) {
    && |m.month| > 0 && AllWordChars(m.month)
    && |m.day| > 0 && AllDigits(m.day)
    && |m.hour| > 0 && AllDigits(m.hour)
    && |m.minute| > 0 && AllDigits(m.minute)
  }

  /** The pattern tried at offset `i`. Each class is disjoint from the one that must
      follow it, so backtracking never shortens a run: every group is a maximal run. */
  function MatchAt(s: string, i: nat): (r: Option<TimeMatch>)
    requires i <= |s|
    ensures r.Some? ==> WellFormedMatch(r.value)
  {
    var w := RunEnd(s, i, Word);
    var s1 := RunEnd(s, w, Space);
    var d := RunEnd(s, s1, Digit);
    var s2 := RunEnd(s, d, Space);
    var h := RunEnd(s, s2, Digit);
    var r := MatchAfterRuns(s, i, w, s1, d, s2, h);
    if r.None? then r
    else
      WordRun(s, i);
      DigitRun(s, s1);
      DigitRun(s, s2);
      DigitRun(s, h + 1);
      r
  }

  /** The rest of `MatchAt` once the runs up to the hour are known: each run is
      non-empty, and a colon and a non-empty run of minute digits follow. */
  function MatchAfterRuns(s: string, i: nat, w: nat, s1: nat, d: nat, s2: nat, h: nat): (r: Option<TimeMatch>)
    requires i <= w <= s1 <= d <= s2 <= h <= |s|
    ensures r.Some? ==> i < w < s1 < d < s2 < h < |s| && h + 1 < RunEnd(s, h + 1, Digit)
    ensures r.Some? ==> r.value == TimeMatch(s[i..w], s[s1..d], s[s2..h], s[h + 1..RunEnd(s, h + 1, Digit)])
  {
    if w == i || s1 == w || d == s1 || s2 == d || h == s2 || h == |s| || s[h] != ':' then None
    else
      var m := RunEnd(s, h + 1, Digit);
      if m == h + 1 then None
      else Some(TimeMatch(s[i..w], s[s1..d], s[s2..h], s[h + 1..m]))
  }

  /** `k` is the first offset at or after `i` where the pattern matches. */
  predicate FirstMatchAt(s: string, i: nat, k: nat)
    requires i <= |s|
  {
    i <= k <= |s| && (forall j :: i <= j < k ==> MatchAt(s, j).None?)
  }

  /** `s.match(pattern)`: the match at the leftmost offset at or after `i` that has one. */
  function FindTime(s: string, i: nat): (r: Option<TimeMatch>)
    requires i <= |s|
    ensures r.Some? ==> WellFormedMatch(r.value)
    ensures r.None? ==> forall k :: i <= k <= |s| ==> MatchAt(s, k).None?
    ensures r.Some? ==> exists k :: FirstMatchAt(s, i, k) && MatchAt(s, k) == r
    decreases |s| - i
  {
    match MatchAt(s, i)
    case Some(m) => Some(m)
    case None => if i == |s| then None else FindTime(s, i + 1)
  }

  function MatchTime(s: string): Option<TimeMatch> {
    FindTime(s, 0)
  }

  lemma RunOver(s: string, i: nat, j: nat, cls: CharClass)
    requires i <= j <= |s|
    requires forall k :: i <= k < j ==> InClass(s[k], cls)
    requires j == |s| || !InClass(s[j], cls)
    ensures RunEnd(s, i, cls) == j
    decreases j - i
  {
    if i < j { RunOver(s, i + 1, j, cls); }
  }

  /** A piece `t` of a class, placed at offset `i` and not followed by that class, is
      exactly the run that starts at `i`. */
  lemma RunOfPiece(s: string, i: nat, t: string, cls: CharClass)
    requires i + |t| <= |s| && s[i..i + |t|] == t
    requires forall k :: 0 <= k < |t| ==> InClass(t[k], cls)
    requires i + |t| == |s| || !InClass(s[i + |t|], cls)
    ensures RunEnd(s, i, cls) == i + |t|
  {
    forall k | i <= k < i + |t| ensures InClass(s[k], cls) {
      assert s[k] == t[k - i];
    }
    RunOver(s, i, i + |t|, cls);
  }

  /** A timestamp written "W D H:M" (a word, then digits) matches with exactly those groups. */
  lemma MatchWellFormed(w: string, d: string, h: string, m: string)
    requires WellFormedMatch(TimeMatch(w, d, h, m))
    ensures MatchTime(w + " " + d + " " + h + ":" + m) == Some(TimeMatch(w, d, h, m))
  {
    var s := w + " " + d + " " + h + ":" + m;
    var a := |w|;
    var b := a + 1 + |d|;
    var c := b + 1 + |h|;
    assert s[..a] == w && s[a] == ' ';
    assert s[a + 1..b] == d && s[b] == ' ';
    assert s[b + 1..c] == h && s[c] == ':';
    assert s[c + 1..] == m;
    MatchOfPieces(s, w, d, h, m);
  }

  lemma MatchOfPieces(s: string, w: string, d: string, h: string, m: string)
    requires WellFormedMatch(TimeMatch(w, d, h, m))
    requires |s| == |w| + |d| + |h| + |m| + 3
    requires s[..|w|] == w && s[|w|] == ' '
    requires s[|w| + 1..|w| + 1 + |d|] == d && s[|w| + 1 + |d|] == ' '
    requires s[|w| + |d| + 2..|w| + |d| + |h| + 2] == h && s[|w| + |d| + |h| + 2] == ':'
    requires s[|w| + |d| + |h| + 3..] == m
    ensures MatchAt(s, 0) == Some(TimeMatch(w, d, h, m))
  {
    var a := |w|;
    var b := a + 1 + |d|;
    var c := b + 1 + |h|;
    assert s[0..a] == w;
    RunOfPiece(s, 0, w, Word);
    SpaceRun(s, a, d);
    RunOfPiece(s, a + 1, d, Digit);
    SpaceRun(s, b, h);
    RunOfPiece(s, b + 1, h, Digit);
    assert s[c + 1..c + 1 + |m|] == m;
    RunOfPiece(s, c + 1, m, Digit);
    MatchAtRuns(s, 0, a, b, c);
  }

  /** A single space followed by the first character of a digit piece is a run of
      one. */
  lemma SpaceRun(s: string, i: nat, t: string)
    requires |t| > 0 && AllDigits(t)
    requires i + 1 + |t| <= |s| && s[i] == ' ' && s[i + 1..i + 1 + |t|] == t
    ensures RunEnd(s, i, Space) == i + 1
  {
    assert s[i + 1] == t[0];
  }

  lemma MatchAtRuns(s: string, i: nat, a: nat, b: nat, c: nat)
    requires i < a && a + 1 < b && b + 1 < c && c + 1 < |s| && s[c] == ':'
    requires RunEnd(s, i, Word) == a && RunEnd(s, a, Space) == a + 1
    requires RunEnd(s, a + 1, Digit) == b && RunEnd(s, b, Space) == b + 1
    requires RunEnd(s, b + 1, Digit) == c && RunEnd(s, c + 1, Digit) == |s|
    ensures MatchAt(s, i) == Some(TimeMatch(s[i..a], s[a + 1..b], s[b + 1..c], s[c + 1..|s|]))
  {
    assert MatchAt(s, i) == MatchAfterRuns(s, i, a, a + 1, b, b + 1, c);
    MatchAfterRunsSome(s, i, a, a + 1, b, b + 1, c);
  }

  lemma MatchAfterRunsSome(s: string, i: nat, w: nat, s1: nat, d: nat, s2: nat, h: nat)
    requires i < w < s1 < d < s2 < h < |s| - 1 && s[h] == ':' && RunEnd(s, h + 1, Digit) == |s|
    ensures MatchAfterRuns(s, i, w, s1, d, s2, h) == Some(TimeMatch(s[i..w], s[s1..d], s[s2..h], s[h + 1..|s|]))
  {
  }

  datatype TimeKey = TimeKey(dateKey: string, minutes: nat)

  /** `parseTimeForGrouping`: day bucket "<month> <day without leading zeros>" and
      minute of the day; ("", 0) when the pattern does not match. */
  function ParseTimeForGrouping(timeStr: string): (r: TimeKey)
    ensures r.dateKey == "" <==> MatchTime(timeStr).None?
    ensures MatchTime(timeStr).None? ==> r == TimeKey("", 0)
  {
    match MatchTime(timeStr)
    case Some(m) =>
      TimeKey(m.month + " " + NatToString(DigitsValue(m.day)),
              DigitsValue(m.hour) * 60 + DigitsValue(m.minute))
    case None => TimeKey("", 0)
  }

  /** On "W D H:M" the bucket is W and the decimal text of D, the minutes H×60+M
      (hours and minutes are not range-checked). */
  lemma ParseWellFormed(w: string, d: string, h: string, m: string)
    requires WellFormedMatch(TimeMatch(w, d, h, m))
    ensures ParseTimeForGrouping(w + " " + d + " " + h + ":" + m)
      == TimeKey(w + " " + NatToString(DigitsValue(d)), DigitsValue(h) * 60 + DigitsValue(m))
  {
    MatchWellFormed(w, d, h, m);
  }

  /** Leading zeros of the day do not change the bucket: "September 05" and
      "September 5" group together. */
  lemma DayBucketIgnoresLeadingZeros(w: string, d: string, h: string, m: string)
    requires WellFormedMatch(TimeMatch(w, d, h, m))
    ensures ParseTimeForGrouping(w + " " + ("0" + d) + " " + h + ":" + m).dateKey
         == ParseTimeForGrouping(w + " " + d + " " + h + ":" + m).dateKey
  {
    LeadingZeroValue(d);
    assert WellFormedMatch(TimeMatch(w, "0" + d, h, m));
    ParseWellFormed(w, d, h, m);
    ParseWellFormed(w, "0" + d, h, m);
  }

  lemma {:induction false} LeadingZeroValue(d: string)
    requires AllDigits(d)
    ensures AllDigits("0" + d) && DigitsValue("0" + d) == DigitsValue(d)
    decreases |d|
  {
    if d != [] {
      LeadingZeroValue(d[..|d| - 1]);
      assert ("0" + d)[..|"0" + d| - 1] == "0" + d[..|d| - 1];
    } else {
      assert "0" + d == "0";
    }
  }

  // ---------------------------------------------------------------------------
  // Processing ids: 'xxxxxxxx-xxxx-4xxx-yxxx-xxxxxxxxxxxx' with each x and y
  // replaced from a random nibble

  type Nibble = x: nat | x < 16

  const IdTemplate: string := "xxxxxxxx-xxxx-4xxx-yxxx-xxxxxxxxxxxx"

  /** The positions of `IdTemplate` that hold the `x` placeholder. */
  predicate HexPosition(i: int) {
    (0 <= i < 8) || (9 <= i < 13) || (15 <= i < 18) || (20 <= i < 23) || (24 <= i < 36)
  }

  lemma TemplateHead()
    ensures forall i :: 0 <= i < 18 && HexPosition(i) ==> IdTemplate[i] == 'x'
  {
  }

  lemma TemplateTail()
    ensures forall i :: 18 <= i < 36 && HexPosition(i) ==> IdTemplate[i] == 'x'
  {
  }

  predicate IsHexDigit(c: char) {
    ('0' <= c <= '9') || ('a' <= c <= 'f')
  }

  function HexDigit(v: Nibble): (c: char)
    ensures IsHexDigit(c)
  {
    if v < 10 then ('0' as int + v) as char else ('a' as int + v - 10) as char
  }

  /** `r` fills template `t`: same length, every x a hex digit, every y one of
      8, 9, a, b, every other character kept. */
  predicate Fills(t: string, r: string) {
    |r| == |t| &&
    forall i :: 0 <= i < |t| ==>
      && (t[i] == 'x' ==> IsHexDigit(r[i]))
      && (t[i] == 'y' ==> r[i] in {'8', '9', 'a', 'b'})
      && (t[i] != 'x' && t[i] != 'y' ==> r[i] == t[i])
  }

  /** A filled first character in front of a filled rest fills the template. */
  lemma FillsCons(t: string, c: char, r: string)
    requires |t| > 0 && Fills(t[1..], r)
    requires t[0] == 'x' ==> IsHexDigit(c)
    requires t[0] == 'y' ==> c in {'8', '9', 'a', 'b'}
    requires t[0] != 'x' && t[0] != 'y' ==> c == t[0]
    ensures Fills(t, [c] + r)
  {
    var r' := [c] + r;
    forall i | 0 <= i < |t|
      ensures && (t[i] == 'x' ==> IsHexDigit(r'[i]))
              && (t[i] == 'y' ==> r'[i] in {'8', '9', 'a', 'b'})
              && (t[i] != 'x' && t[i] != 'y' ==> r'[i] == t[i])
    {
      if i > 0 {
        assert r'[i] == r[i - 1] && t[i] == t[1..][i - 1];
      }
    }
  }

  /** Replaces every placeholder of `t`; `draws(k)` is `Math.floor(Math.random() * 16)`
      for the k-th placeholder, so `(counter + Math.random() * 16) % 16` floors to
      `(counter + draws(k)) % 16`. */
  function FillTemplate(t: string, counter: nat, draws: nat -> Nibble, k: nat): (r: string)
    ensures Fills(t, r)
  {
    if t == [] then []
    else
      var c := if t[0] == 'x' then HexDigit((counter + draws(k)) % 16)
               // Math.floor(r) & 0x3 | 0x8
               else if t[0] == 'y' then HexDigit((counter + draws(k)) % 16 % 4 + 8)
               else t[0];
      var rest := FillTemplate(t[1..], counter, draws, if t[0] == 'x' || t[0] == 'y' then k + 1 else k);
      FillsCons(t, c, rest);
      [c] + rest
  }

  function GenerateProcessingId(counter: nat, draws: nat -> Nibble): (id: string)
    ensures |id| == 36
    ensures id[8] == '-' && id[13] == '-' && id[18] == '-' && id[23] == '-'
    ensures id[14] == '4'
    ensures id[19] in {'8', '9', 'a', 'b'}
    ensures forall i :: 0 <= i < 36 && HexPosition(i) ==> IsHexDigit(id[i])
  {
    var id := FillTemplate(IdTemplate, counter, draws, 0);
    FilledTemplate(id);
    id
  }

  /** What any filling of `IdTemplate` looks like. */
  lemma FilledTemplate(id: string)
    requires Fills(IdTemplate, id)
    ensures |id| == 36
    ensures id[8] == '-' && id[13] == '-' && id[18] == '-' && id[23] == '-'
    ensures id[14] == '4'
    ensures id[19] in {'8', '9', 'a', 'b'}
    ensures forall i :: 0 <= i < 36 && HexPosition(i) ==> IsHexDigit(id[i])
  {
    TemplateHead();
    TemplateTail();
  }
}
