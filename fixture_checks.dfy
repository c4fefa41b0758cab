/** What the model gives on the dashboard's fixture data: the processing batches and
    credits of 5 September, the synthesised rows of 10 September, and the alert
    status of the last 24 hours before and after a mitigation. */
module FixtureChecks {
  import opened Types
  import opened Text
  import opened DataGenerator
  import opened MockData
  import opened FileDetails
  import opened LedgerProperties
  import opened AlertsSection

  // ---------------------------------------------------------------------------
  // Alerts

  /** In the last 24 hours alerts 1 (High) and 2 (Medium) are active and the status
      is High; alert 4 is already mitigated. Mitigating alert 1 leaves alert 2
      alone and the status Medium. */
  lemma AlertsOfLastDay()
    ensures ActiveAlerts(AllAlerts, Last24h) == [AllAlerts[0], AllAlerts[1]]
    ensures OverallStatus(ActiveAlerts(AllAlerts, Last24h)) == StatusHigh
    ensures ActiveAlerts(MitigateAlert(AllAlerts, 1), Last24h) == [AllAlerts[1]]
    ensures OverallStatus(ActiveAlerts(MitigateAlert(AllAlerts, 1), Last24h)) == StatusMedium
  {
    var all := AllAlerts;
    ActiveOfLastDay();
    ActiveOfLastDayMitigated();
    assert HasSeverity([all[0], all[1]], High) by {
      assert [all[0], all[1]][0].severity == High;
    }
    assert HasSeverity([all[1]], Medium) by {
      assert [all[1]][0].severity == Medium;
    }
  }

  lemma ActiveOfLastDay()
    ensures ActiveAlerts(AllAlerts, Last24h) == [AllAlerts[0], AllAlerts[1]]
  {
    var all := AllAlerts;
    assert IsActive(all[0], Last24h) && IsActive(all[1], Last24h) && !IsActive(all[2], Last24h);
    assert ActiveAlerts(all[..1], Last24h) == [all[0]] by {
      assert all[..1][..0] == [];
    }
    assert ActiveAlerts(all[..2], Last24h) == [all[0], all[1]] by {
      assert all[..2][..1] == all[..1];
    }
    assert all[..|all| - 1] == all[..2];
  }

  lemma ActiveOfLastDayMitigated()
    ensures ActiveAlerts(MitigateAlert(AllAlerts, 1), Last24h) == [AllAlerts[1]]
  {
    var all := AllAlerts;
    var m := MitigateAlert(all, 1);
    assert m == [all[0].(mitigated := true), all[1], all[2]];
    assert !IsActive(m[0], Last24h) && IsActive(m[1], Last24h) && !IsActive(m[2], Last24h);
    assert ActiveAlerts(m[..1], Last24h) == [] by {
      assert m[..1][..0] == [];
    }
    assert ActiveAlerts(m[..2], Last24h) == [m[1]] by {
      assert m[..2][..1] == m[..1];
    }
    assert m[..|m| - 1] == m[..2];
  }

  // ---------------------------------------------------------------------------
  // Time keys of the fixture's timestamps

  lemma TwoDigits(s: string)
    requires |s| == 2 && AllDigits(s)
    ensures DigitsValue(s) == DigitValue(s[0]) * 10 + DigitValue(s[1])
  {
    var t := s[..1];
    assert t[..0] == [] && t[0] == s[0];
    assert DigitsValue(t) == DigitValue(s[0]);
  }

  /** The key of a timestamp given as its four pieces. */
  lemma KeyOfPieces(s: string, w: string, d: string, h: string, m: string, key: string, minutes: nat)
    requires s == w + " " + d + " " + h + ":" + m
    requires WellFormedMatch(TimeMatch(w, d, h, m))
    requires key == w + " " + NatToString(DigitsValue(d)) && minutes == DigitsValue(h) * 60 + DigitsValue(m)
    ensures ParseTimeForGrouping(s) == TimeKey(key, minutes)
  {
    ParseWellFormed(w, d, h, m);
  }

  lemma KeySeptember5At1000()
    ensures ParseTimeForGrouping("September 5 10:00") == TimeKey("September 5", 600)
  {
    TwoDigits("10"); TwoDigits("00");
    assert DigitsValue("5") == 5;
    KeyOfPieces("September 5 10:00", "September", "5", "10", "00", "September 5", 600);
  }

  lemma KeySeptember5At1015()
    ensures ParseTimeForGrouping("September 5 10:15") == TimeKey("September 5", 615)
  {
    TwoDigits("10"); TwoDigits("15");
    assert DigitsValue("5") == 5;
    KeyOfPieces("September 5 10:15", "September", "5", "10", "15", "September 5", 615);
  }

  lemma KeySeptember5At1030()
    ensures ParseTimeForGrouping("September 5 10:30") == TimeKey("September 5", 630)
  {
    TwoDigits("10"); TwoDigits("30");
    assert DigitsValue("5") == 5;
    KeyOfPieces("September 5 10:30", "September", "5", "10", "30", "September 5", 630);
  }

  /** The synthesised time of a timestamp given as its four pieces; `next` is the
      two-digit text of the following hour. */
  lemma SynthOfPieces(s: string, w: string, d: string, h: string, m: string, next: string, r: string)
    requires s == w + " " + d + " " + h + ":" + m
    requires WellFormedMatch(TimeMatch(w, d, h, m))
    requires next == PadStart2(NatToString((DigitsValue(h) + 1) % 24))
    requires r == w + " " + d + " " + next + ":" + m
    ensures SynthTime(s) == r
  {
    SynthTimeWellFormed(w, d, h, m);
  }

  /** The hour after a two-digit hour `h` of value `v`, as two digits. */
  lemma NextHour(h: string, v: nat, next: string)
    requires |h| == 2 && AllDigits(h) && DigitValue(h[0]) * 10 + DigitValue(h[1]) == v
    requires next == PadStart2(NatToString((v + 1) % 24))
    ensures next == PadStart2(NatToString((DigitsValue(h) + 1) % 24))
  {
    TwoDigits(h);
  }

  /** The synthesised times of the two unindexed files of 10 September: one hour
      after their ingestion. */
  lemma SynthTimeSeptember10At1100()
    ensures SynthTime("September 10 11:00") == "September 10 12:00"
  {
    SynthTimeSeptember10At1100Text();
    SynthTimeSeptember10At1100Pieces();
    SynthOfPieces("September 10 11:00", "September", "10", "11", "00", "12", "September 10 12:00");
  }

  lemma SynthTimeSeptember10At1100Text()
    ensures "September 10 11:00" == "September" + " " + "10" + " " + "11" + ":" + "00"
    ensures "September 10 12:00" == "September" + " " + "10" + " " + "12" + ":" + "00"
  {
  }

  lemma SynthTimeSeptember10At1100Pieces()
    ensures WellFormedMatch(TimeMatch("September", "10", "11", "00"))
    ensures "12" == PadStart2(NatToString((DigitsValue("11") + 1) % 24))
  {
    assert NatToString(12) == "12";
    assert PadStart2("12") == "12";
    NextHour("11", 11, "12");
  }

  lemma SynthTimeSeptember10At1245()
    ensures SynthTime("September 10 12:45") == "September 10 13:45"
  {
    SynthTimeSeptember10At1245Text();
    SynthTimeSeptember10At1245Pieces();
    SynthOfPieces("September 10 12:45", "September", "10", "12", "45", "13", "September 10 13:45");
  }

  lemma SynthTimeSeptember10At1245Text()
    ensures "September 10 12:45" == "September" + " " + "10" + " " + "12" + ":" + "45"
    ensures "September 10 13:45" == "September" + " " + "10" + " " + "13" + ":" + "45"
  {
  }

  lemma SynthTimeSeptember10At1245Pieces()
    ensures WellFormedMatch(TimeMatch("September", "10", "12", "45"))
    ensures "13" == PadStart2(NatToString((DigitsValue("12") + 1) % 24))
  {
    assert NatToString(13) == "13";
    assert PadStart2("13") == "13";
    NextHour("12", 12, "13");
  }

  /** An overnight shift wraps: 23:30 becomes 00:30 of the same written day. */
  lemma SynthTimeWrapsAtMidnight()
    ensures SynthTime("October 31 23:30") == "October 31 00:30"
  {
    SynthTimeWrapsAtMidnightText();
    SynthTimeWrapsAtMidnightPieces();
    SynthOfPieces("October 31 23:30", "October", "31", "23", "30", "00", "October 31 00:30");
  }

  lemma SynthTimeWrapsAtMidnightText()
    ensures "October 31 23:30" == "October" + " " + "31" + " " + "23" + ":" + "30"
    ensures "October 31 00:30" == "October" + " " + "31" + " " + "00" + ":" + "30"
  {
  }

  lemma SynthTimeWrapsAtMidnightPieces()
    ensures WellFormedMatch(TimeMatch("October", "31", "23", "30"))
    ensures "00" == PadStart2(NatToString((DigitsValue("23") + 1) % 24))
  {
    assert NatToString(0) == "0";
    assert PadStart2("0") == "00";
    NextHour("23", 23, "00");
  }

  // ---------------------------------------------------------------------------
  // 5 September: one processing batch, ids and reasons carried over, credits

  lemma GroupSnoc(parse: Parser, ids: IdSource, fs: seq<FileDetail>, f: FileDetail)
    ensures Group(parse, ids, fs + [f]) == Place(parse, ids, Group(parse, ids, fs), f)
  {
    assert (fs + [f])[..|fs|] == fs;
  }

  lemma JoinOnly(parse: Parser, ids: IdSource, b: Batch, f: FileDetail)
    requires Qualifies(parse, b, f)
    ensures Place(parse, ids, [b], f) == [b.(files := b.files + [f])]
  {
    assert FirstFit(parse, [b], f) == Some(0);
  }

  /** Three files in one day bucket within 30 minutes of the first, in time order,
      form one batch opened by the first. */
  lemma OneBatchOfThree(parse: Parser, ids: IdSource, fs: seq<FileDetail>)
    requires |fs| == 3
    requires KeyOf(parse, fs[1]).dateKey == KeyOf(parse, fs[0]).dateKey
    requires KeyOf(parse, fs[2]).dateKey == KeyOf(parse, fs[0]).dateKey
    requires KeyOf(parse, fs[0]).minutes <= KeyOf(parse, fs[1]).minutes <= KeyOf(parse, fs[2]).minutes
    requires KeyOf(parse, fs[2]).minutes <= KeyOf(parse, fs[0]).minutes + 30
    ensures SortByTime(parse, fs) == fs
    ensures Group(parse, ids, fs) == [Batch(ids(0), fs[0].updateTime, fs)]
  {
    SortedThree(parse, fs);
    GroupOfThree(parse, ids, fs);
  }

  lemma SortedThree(parse: Parser, fs: seq<FileDetail>)
    requires |fs| == 3
    requires KeyOf(parse, fs[1]).dateKey == KeyOf(parse, fs[0]).dateKey
    requires KeyOf(parse, fs[2]).dateKey == KeyOf(parse, fs[0]).dateKey
    requires KeyOf(parse, fs[0]).minutes <= KeyOf(parse, fs[1]).minutes <= KeyOf(parse, fs[2]).minutes
    ensures SortByTime(parse, fs) == fs
  {
    SortByTimeSortedIdentity(parse, fs);
  }

  lemma GroupOfThree(parse: Parser, ids: IdSource, fs: seq<FileDetail>)
    requires |fs| == 3
    requires KeyOf(parse, fs[1]).dateKey == KeyOf(parse, fs[0]).dateKey
    requires KeyOf(parse, fs[2]).dateKey == KeyOf(parse, fs[0]).dateKey
    requires KeyOf(parse, fs[0]).minutes <= KeyOf(parse, fs[1]).minutes <= KeyOf(parse, fs[2]).minutes
    requires KeyOf(parse, fs[2]).minutes <= KeyOf(parse, fs[0]).minutes + 30
    ensures Group(parse, ids, fs) == [Batch(ids(0), fs[0].updateTime, fs)]
  {
    GroupSnoc(parse, ids, [], fs[0]);
    assert [] + [fs[0]] == [fs[0]];
    var b := Batch(ids(0), fs[0].updateTime, [fs[0]]);
    assert Group(parse, ids, [fs[0]]) == [b];
    GroupSnoc(parse, ids, [fs[0]], fs[1]);
    JoinOnly(parse, ids, b, fs[1]);
    assert [fs[0]] + [fs[1]] == [fs[0], fs[1]];
    var b' := b.(files := [fs[0], fs[1]]);
    assert Group(parse, ids, [fs[0], fs[1]]) == [b'];
    GroupSnoc(parse, ids, [fs[0], fs[1]], fs[2]);
    JoinOnly(parse, ids, b', fs[2]);
    assert [fs[0], fs[1]] + [fs[2]] == fs;
  }

  lemma GroupPrefix(parse: Parser, ids: IdSource, fs: seq<FileDetail>, n: nat)
    requires n < |fs|
    ensures Group(parse, ids, fs[..n + 1]) == Place(parse, ids, Group(parse, ids, fs[..n]), fs[n])
  {
    assert fs[..n + 1] == fs[..n] + [fs[n]];
    GroupSnoc(parse, ids, fs[..n], fs[n]);
  }

  /** Updates of one day bucket, 15 minutes apart. */
  predicate EvenlySpaced(parse: Parser, fs: seq<FileDetail>) {
    |fs| > 0 &&
    forall i :: 0 <= i < |fs| ==>
      KeyOf(parse, fs[i]) == TimeKey(KeyOf(parse, fs[0]).dateKey, KeyOf(parse, fs[0]).minutes + 15 * i)
  }

  /** In an evenly spaced run, file `n` qualifies for a batch opened by file `a`
      exactly when the two are at most two places apart. */
  lemma SpacedQualifies(parse: Parser, fs: seq<FileDetail>, a: nat, n: nat, b: Batch)
    requires EvenlySpaced(parse, fs) && a < |fs| && n < |fs|
    requires b.startTime == fs[a].updateTime
    ensures Qualifies(parse, b, fs[n]) <==> -2 <= n - a <= 2
  {
    var k := KeyOf(parse, fs[0]);
    assert KeyOf(parse, fs[a]) == TimeKey(k.dateKey, k.minutes + 15 * a);
    assert KeyOf(parse, fs[n]) == TimeKey(k.dateKey, k.minutes + 15 * n);
  }

  /** The `k`-th batch of the first `m` updates of an evenly spaced run: updates
      `3k` to `3k + 2`, cut off at `m`, opened by update `3k`. */
  function SpacedChunk(ids: IdSource, fs: seq<FileDetail>, m: nat, k: nat): Batch
    requires 3 * k < m <= |fs|
  {
    Batch(ids(k), fs[3 * k].updateTime, fs[3 * k..if 3 * k + 3 <= m then 3 * k + 3 else m])
  }

  /** The batches of the first `m` updates are `SpacedChunk(.., m, 0)`, .... */
  predicate ChunkedAs(bs: seq<Batch>, ids: IdSource, fs: seq<FileDetail>, m: nat)
    requires m <= |fs|
  {
    |bs| == (m + 2) / 3 && forall k :: 0 <= k < |bs| ==> bs[k] == SpacedChunk(ids, fs, m, k)
  }

  /** Update `n`, a multiple of 3 places into the run, is at least three places past
      every batch opener before it and opens a new batch. */
  lemma SpacedOpen(parse: Parser, ids: IdSource, fs: seq<FileDetail>, n: nat, g: seq<Batch>)
    requires EvenlySpaced(parse, fs) && n < |fs| && n % 3 == 0
    requires ChunkedAs(g, ids, fs, n)
    ensures ChunkedAs(Place(parse, ids, g, fs[n]), ids, fs, n + 1)
  {
    forall k | 0 <= k < |g| ensures !Qualifies(parse, g[k], fs[n]) {
      SpacedQualifies(parse, fs, 3 * k, n, g[k]);
    }
    assert FirstFit(parse, g, fs[n]).None?;
    OpenedChunks(ids, fs, n, g);
  }

  lemma OpenedChunks(ids: IdSource, fs: seq<FileDetail>, n: nat, g: seq<Batch>)
    requires n < |fs| && n % 3 == 0 && ChunkedAs(g, ids, fs, n)
    ensures ChunkedAs(g + [Batch(ids(|g|), fs[n].updateTime, [fs[n]])], ids, fs, n + 1)
  {
    var g' := g + [Batch(ids(|g|), fs[n].updateTime, [fs[n]])];
    assert fs[n..n + 1] == [fs[n]];
    forall k | 0 <= k < |g'| ensures g'[k] == SpacedChunk(ids, fs, n + 1, k) {
      if k < |g| {
        assert g'[k] == SpacedChunk(ids, fs, n, k);
      }
    }
  }

  /** Update `n`, not a multiple of 3 places into the run, is within two places of
      the last batch opener and joins that batch. */
  lemma SpacedJoin(parse: Parser, ids: IdSource, fs: seq<FileDetail>, n: nat, g: seq<Batch>)
    requires EvenlySpaced(parse, fs) && n < |fs| && n % 3 != 0
    requires ChunkedAs(g, ids, fs, n)
    ensures ChunkedAs(Place(parse, ids, g, fs[n]), ids, fs, n + 1)
  {
    var j := |g| - 1;
    assert 3 * j < n <= 3 * j + 2;
    forall k | 0 <= k < j ensures !Qualifies(parse, g[k], fs[n]) {
      SpacedQualifies(parse, fs, 3 * k, n, g[k]);
    }
    SpacedQualifies(parse, fs, 3 * j, n, g[j]);
    assert FirstFit(parse, g, fs[n]) == Some(j);
    JoinedChunks(ids, fs, n, g);
  }

  lemma JoinedChunks(ids: IdSource, fs: seq<FileDetail>, n: nat, g: seq<Batch>)
    requires n < |fs| && n % 3 != 0 && ChunkedAs(g, ids, fs, n)
    ensures |g| > 0
    ensures ChunkedAs(g[|g| - 1 := g[|g| - 1].(files := g[|g| - 1].files + [fs[n]])], ids, fs, n + 1)
  {
    var j := |g| - 1;
    assert 3 * j < n <= 3 * j + 2;
    var g' := g[j := g[j].(files := g[j].files + [fs[n]])];
    assert fs[3 * j..n] + [fs[n]] == fs[3 * j..n + 1];
    forall k | 0 <= k < |g'| ensures g'[k] == SpacedChunk(ids, fs, n + 1, k) {
      if k < j {
        assert g'[k] == SpacedChunk(ids, fs, n, k);
      }
    }
  }

  /** One more update of an evenly spaced run keeps the batches in threes. */
  lemma SpacedStep(parse: Parser, ids: IdSource, fs: seq<FileDetail>, n: nat)
    requires EvenlySpaced(parse, fs) && n < |fs|
    requires ChunkedAs(Group(parse, ids, fs[..n]), ids, fs, n)
    ensures ChunkedAs(Group(parse, ids, fs[..n + 1]), ids, fs, n + 1)
  {
    GroupPrefix(parse, ids, fs, n);
    if n % 3 == 0 {
      SpacedOpen(parse, ids, fs, n, Group(parse, ids, fs[..n]));
    } else {
      SpacedJoin(parse, ids, fs, n, Group(parse, ids, fs[..n]));
    }
  }

  /** Updates of one day bucket, 15 minutes apart, form batches of three in order:
      every third update is 45 minutes after the batch opener before it and opens
      the next batch, with a fresh id from the batch count. */
  lemma {:induction false} SpacedGroup(parse: Parser, ids: IdSource, fs: seq<FileDetail>, m: nat)
    requires EvenlySpaced(parse, fs) && m <= |fs|
    ensures ChunkedAs(Group(parse, ids, fs[..m]), ids, fs, m)
  {
    if m == 0 {
      assert fs[..0] == [];
    } else {
      SpacedGroup(parse, ids, fs, m - 1);
      SpacedStep(parse, ids, fs, m - 1);
    }
  }

  /** Eight updates of one day bucket, 15 minutes apart, form batches of 3, 3 and 2:
      the fourth is 45 minutes after the first anchor and opens a batch, and the
      seventh is 45 minutes after the second anchor and opens the third. */
  lemma EightEvenlySpaced(parse: Parser, ids: IdSource, fs: seq<FileDetail>)
    requires |fs| == 8 && EvenlySpaced(parse, fs)
    ensures Group(parse, ids, fs)
         == [Batch(ids(0), fs[0].updateTime, fs[..3]),
             Batch(ids(1), fs[3].updateTime, fs[3..6]),
             Batch(ids(2), fs[6].updateTime, fs[6..])]
  {
    SpacedGroup(parse, ids, fs, 8);
    assert fs[..8] == fs;
    var g := Group(parse, ids, fs);
    assert g[0] == SpacedChunk(ids, fs, 8, 0);
    assert g[1] == SpacedChunk(ids, fs, 8, 1);
    assert g[2] == SpacedChunk(ids, fs, 8, 2);
    assert fs[0..3] == fs[..3];
    assert fs[6..8] == fs[6..];
  }

  /** Evenly spaced updates of one bucket are in time order. */
  lemma EvenlySpacedSorted(parse: Parser, fs: seq<FileDetail>)
    requires EvenlySpaced(parse, fs)
    ensures SortByTime(parse, fs) == fs
  {
    assert SortedByTime(parse, fs) by {
      forall i, j | 0 <= i < j < |fs| ensures KeyLeq(KeyOf(parse, fs[i]), KeyOf(parse, fs[j])) {
        assert KeyLess(KeyOf(parse, fs[i]), KeyOf(parse, fs[j]));
      }
    }
    SortByTimeSortedIdentity(parse, fs);
  }

  /** The key of an update of 31 October at "HH:MM". */
  lemma KeyOctober31(s: string, h: string, m: string, minutes: nat)
    requires |h| == 2 && |m| == 2 && AllDigits(h) && AllDigits(m)
    requires s == "October" + " " + "31" + " " + h + ":" + m
    requires minutes == (DigitValue(h[0]) * 10 + DigitValue(h[1])) * 60 + DigitValue(m[0]) * 10 + DigitValue(m[1])
    ensures ParseTimeForGrouping(s) == TimeKey("October 31", minutes)
  {
    TwoDigits(h); TwoDigits(m); TwoDigits("31");
    assert NatToString(31) == "31";
    KeyOfPieces(s, "October", "31", h, m, "October 31", minutes);
  }

  /** The eight pipeline updates of 31 October, 07:00 to 08:45, every 15 minutes. */
  lemma PipelineOctober31()
    ensures var fs := FilesOf(Fixture10_31, BatchDataPipeline);
      && |fs| == 8
      && fs[0].updateTime == "October 31 07:00" && fs[1].updateTime == "October 31 07:15"
      && fs[2].updateTime == "October 31 07:30" && fs[3].updateTime == "October 31 07:45"
      && fs[4].updateTime == "October 31 08:00" && fs[5].updateTime == "October 31 08:15"
      && fs[6].updateTime == "October 31 08:30" && fs[7].updateTime == "October 31 08:45"
  {
    PipelineOctober31Early();
    PipelineOctober31Late();
  }

  lemma PipelineOctober31Early()
    ensures var fs := FilesOf(Fixture10_31, BatchDataPipeline);
      && |fs| == 8
      && fs[0].updateTime == "October 31 07:00" && fs[1].updateTime == "October 31 07:15"
      && fs[2].updateTime == "October 31 07:30" && fs[3].updateTime == "October 31 07:45"
  {
  }

  lemma PipelineOctober31Late()
    ensures var fs := FilesOf(Fixture10_31, BatchDataPipeline);
      && |fs| == 8
      && fs[4].updateTime == "October 31 08:00" && fs[5].updateTime == "October 31 08:15"
      && fs[6].updateTime == "October 31 08:30" && fs[7].updateTime == "October 31 08:45"
  {
  }

  lemma KeyOctober31At0700()
    ensures ParseTimeForGrouping("October 31 07:00") == TimeKey("October 31", 420)
  {
    KeyOctober31("October 31 07:00", "07", "00", 420);
  }

  lemma KeyOctober31At0715()
    ensures ParseTimeForGrouping("October 31 07:15") == TimeKey("October 31", 435)
  {
    KeyOctober31("October 31 07:15", "07", "15", 435);
  }

  lemma KeyOctober31At0730()
    ensures ParseTimeForGrouping("October 31 07:30") == TimeKey("October 31", 450)
  {
    KeyOctober31("October 31 07:30", "07", "30", 450);
  }

  lemma KeyOctober31At0745()
    ensures ParseTimeForGrouping("October 31 07:45") == TimeKey("October 31", 465)
  {
    KeyOctober31("October 31 07:45", "07", "45", 465);
  }

  lemma KeyOctober31At0800()
    ensures ParseTimeForGrouping("October 31 08:00") == TimeKey("October 31", 480)
  {
    KeyOctober31("October 31 08:00", "08", "00", 480);
  }

  lemma KeyOctober31At0815()
    ensures ParseTimeForGrouping("October 31 08:15") == TimeKey("October 31", 495)
  {
    KeyOctober31("October 31 08:15", "08", "15", 495);
  }

  lemma KeyOctober31At0830()
    ensures ParseTimeForGrouping("October 31 08:30") == TimeKey("October 31", 510)
  {
    KeyOctober31("October 31 08:30", "08", "30", 510);
  }

  lemma KeyOctober31At0845()
    ensures ParseTimeForGrouping("October 31 08:45") == TimeKey("October 31", 525)
  {
    KeyOctober31("October 31 08:45", "08", "45", 525);
  }

  /** Eight files whose keys are given one by one, 15 minutes apart, are evenly
      spaced. */
  lemma SpacedOfKeys(parse: Parser, fs: seq<FileDetail>, day: string, m0: nat)
    requires |fs| == 8
    requires KeyOf(parse, fs[0]) == TimeKey(day, m0) && KeyOf(parse, fs[1]) == TimeKey(day, m0 + 15)
    requires KeyOf(parse, fs[2]) == TimeKey(day, m0 + 30) && KeyOf(parse, fs[3]) == TimeKey(day, m0 + 45)
    requires KeyOf(parse, fs[4]) == TimeKey(day, m0 + 60) && KeyOf(parse, fs[5]) == TimeKey(day, m0 + 75)
    requires KeyOf(parse, fs[6]) == TimeKey(day, m0 + 90) && KeyOf(parse, fs[7]) == TimeKey(day, m0 + 105)
    ensures EvenlySpaced(parse, fs)
  {
  }

  /** The batches of a date whose eight pipeline files are evenly spaced: they
      open at `t0`, `t3` and `t6`, the times of the first, fourth and seventh file. */
  lemma BatchesOfSpaced(parse: Parser, shift: Shifter, ids: IdSource, m: MeterFiles, t0: string, t3: string, t6: string)
    requires var fs := FilesOf(m, BatchDataPipeline);
      && |fs| == 8 && EvenlySpaced(parse, fs)
      && fs[0].updateTime == t0 && fs[3].updateTime == t3 && fs[6].updateTime == t6
    ensures var fs := FilesOf(m, BatchDataPipeline);
      var bs := Parts(parse, shift, ids, m).batches;
      && bs == [Batch(ids(0), t0, fs[..3]), Batch(ids(1), t3, fs[3..6]), Batch(ids(2), t6, fs[6..])]
      && |bs[0].files| == 3 && |bs[1].files| == 3 && |bs[2].files| == 2
  {
    var fs := FilesOf(m, BatchDataPipeline);
    EvenlySpacedSorted(parse, fs);
    EightEvenlySpaced(parse, ids, fs);
  }

  /** A date whose eight pipeline updates are those of 31 October (see
      `PipelineOctober31`) gets batches of 3, 3 and 2, opened at 07:00, 07:45 and
      08:30 with the first three drawn ids, each holding the updates that followed
      its opening in time order. The feed is a parameter: the ledger of the literal
      fixture is not evaluated, the fixture's pipeline list meets the requirement. */
  lemma BatchesOfOctober31(shift: Shifter, ids: IdSource, m: MeterFiles)
    requires var fs := FilesOf(m, BatchDataPipeline);
      && |fs| == 8
      && fs[0].updateTime == "October 31 07:00"
      && fs[1].updateTime == "October 31 07:15"
      && fs[2].updateTime == "October 31 07:30"
      && fs[3].updateTime == "October 31 07:45"
      && fs[4].updateTime == "October 31 08:00"
      && fs[5].updateTime == "October 31 08:15"
      && fs[6].updateTime == "October 31 08:30"
      && fs[7].updateTime == "October 31 08:45"
    ensures var fs := FilesOf(m, BatchDataPipeline);
      var bs := Parts(ParseTimeForGrouping, shift, ids, m).batches;
      && bs == [Batch(ids(0), "October 31 07:00", fs[..3]),
                Batch(ids(1), "October 31 07:45", fs[3..6]),
                Batch(ids(2), "October 31 08:30", fs[6..])]
      && |bs[0].files| == 3 && |bs[1].files| == 3 && |bs[2].files| == 2
  {
    var fs := FilesOf(m, BatchDataPipeline);
    KeyOctober31At0700();
    KeyOctober31At0715();
    KeyOctober31At0730();
    KeyOctober31At0745();
    KeyOctober31At0800();
    KeyOctober31At0815();
    KeyOctober31At0830();
    KeyOctober31At0845();
    SpacedOfKeys(ParseTimeForGrouping, fs, "October 31", 420);
    BatchesOfSpaced(ParseTimeForGrouping, shift, ids, m, "October 31 07:00", "October 31 07:45", "October 31 08:30");
  }

  /** The pipeline files of 5 September. */
  lemma PipelineSeptember5()
    ensures var fs := FilesOf(Fixture9_5, BatchDataPipeline);
      && |fs| == 3
      && fs[0].updateTime == "September 5 10:00"
      && fs[1].updateTime == "September 5 10:15"
      && fs[2].updateTime == "September 5 10:30"
      && fs[2].fileName == "Customer data.png"
      && fs[0].reason == Added && fs[1].reason == Added && fs[2].reason == Added
  {
  }

  /** The three ingestion updates of 5 September (10:00, 10:15, 10:30) form one
      batch, opened at 10:00 with the first drawn id. */
  lemma BatchesOfSeptember5(shift: Shifter, ids: IdSource)
    ensures Parts(ParseTimeForGrouping, shift, ids, Fixture9_5).batches
         == [Batch(ids(0), "September 5 10:00", FilesOf(Fixture9_5, BatchDataPipeline))]
  {
    var fs := FilesOf(Fixture9_5, BatchDataPipeline);
    PipelineSeptember5();
    KeySeptember5At1000();
    KeySeptember5At1015();
    KeySeptember5At1030();
    OneBatchOfThree(ParseTimeForGrouping, ids, fs);
  }

  /** When one batch holds the ingested files and they all carry one reason, an
      indexing file whose name was ingested takes that reason and the batch's id. */
  lemma ReasonFromOneBatch(b: Batch, u: seq<FileDetail>, r: UpdateReason, k: nat, counter0: nat, ids: IdSource)
    requires forall i :: 0 <= i < |b.files| ==> b.files[i].reason == r
    requires k < |u|
    requires exists i :: 0 <= i < |b.files| && b.files[i].fileName == u[k].fileName
    ensures var rows := IndexingRows(u, IngestionMap(IngestionRows([b])).values, counter0, ids);
      k < |rows| && rows[k].reason == r && rows[k].ingestionId == b.id
  {
    var name := u[k].fileName;
    OneBatchRows(b);
    var rows := IngestionRows([b]);
    var i :| 0 <= i < |b.files| && b.files[i].fileName == name;
    assert rows[i].fileName == name;
    MapEntryOfName(rows, name);
    var j: nat :| LastWithName(rows, j) && rows[j].fileName == name
                 && IngestionMap(rows).values[name] == InfoOf(rows[j]);
    var info := IngestionMap(rows).values;
    assert rows[j] == IngestionRow(b.files[j], b.id);
    assert name in info && info[name].reason == r && info[name].processingId == b.id;
    IndexingRowAt(u, info, counter0, ids, k);
    var row := IndexingRows(u, info, counter0, ids)[k];
    assert row == IndexingRow(u[k], info, FreshId(ids, counter0, u, info, k));
  }

  lemma OneBatchRows(b: Batch)
    ensures IngestionRows([b]) == BatchRows(b)
  {
    assert [b][..0] == [];
    assert IngestionRows([]) == [];
  }

  /** The indexing event of "Customer data.png" on 5 September says Updated (see
      `UnstructuredSeptember5`), but its ledger row takes Added and the batch's id
      from the file's ingestion. */
  lemma ReasonCarriedOver(shift: Shifter, ids: IdSource)
    ensures var p := Parts(ParseTimeForGrouping, shift, ids, Fixture9_5);
      2 < |p.indexing| && p.indexing[2].reason == Added && p.indexing[2].ingestionId == ids(0)
  {
    var fs := FilesOf(Fixture9_5, BatchDataPipeline);
    BatchesOfSeptember5(shift, ids);
    SameNameAt2();
    var b := Batch(ids(0), "September 5 10:00", fs);
    ReasonInLedger(ParseTimeForGrouping, shift, ids, Fixture9_5, b, Added, 2);
  }

  /** The third file of 5 September is "Customer data.png" in both meters, ingested
      as Added; every pipeline file there is Added. */
  lemma SameNameAt2()
    ensures var fs := FilesOf(Fixture9_5, BatchDataPipeline);
      var u := FilesOf(Fixture9_5, UnstructuredDataProcessed);
      && (forall i :: 0 <= i < |fs| ==> fs[i].reason == Added)
      && 2 < |fs| && 2 < |u| && fs[2].fileName == u[2].fileName
  {
    PipelineSeptember5();
    UnstructuredSeptember5();
  }

  /** The same, stated of the ledger's parts. */
  lemma ReasonInLedger(parse: Parser, shift: Shifter, ids: IdSource, m: MeterFiles, b: Batch, r: UpdateReason, k: nat)
    requires Parts(parse, shift, ids, m).batches == [b]
    requires forall i :: 0 <= i < |b.files| ==> b.files[i].reason == r
    requires k < |FilesOf(m, UnstructuredDataProcessed)|
    requires exists i :: 0 <= i < |b.files| && b.files[i].fileName == FilesOf(m, UnstructuredDataProcessed)[k].fileName
    ensures var p := Parts(parse, shift, ids, m);
      k < |p.indexing| && p.indexing[k].reason == r && p.indexing[k].ingestionId == b.id
  {
    ReasonFromOneBatch(b, FilesOf(m, UnstructuredDataProcessed), r, k, 1, ids);
  }

  /** The indexing files of 5 September. */
  lemma UnstructuredSeptember5()
    ensures var u := FilesOf(Fixture9_5, UnstructuredDataProcessed);
      && |u| == 3
      && u[0].fileName == "User manual.pdf" && u[0].size == Some(24.5)
      && u[1].fileName == "Product catalog.html" && u[1].size == Some(18.2)
      && u[2].fileName == "Customer data.png" && u[2].size == Some(32.8) && u[2].reason == Updated
  {
  }

  /** The indexing bar of 5 September: 1470 + 1092 + 1968 credits. */
  lemma IndexingSeptember5()
    ensures IndexingTotal(FilesOf(Fixture9_5, UnstructuredDataProcessed)) == 4530.0
  {
    var u := FilesOf(Fixture9_5, UnstructuredDataProcessed);
    UnstructuredSeptember5();
    assert u[..2][..1] == u[..1] && u[..1][..0] == [] && u[..|u| - 1] == u[..2];
    assert IndexingTotal(u[..1]) == 1470.0;
    assert IndexingTotal(u[..2]) == 1470.0 + 1092.0;
  }

  /** The Indexing rows of 5 September carry 1470, 1092 and 1968 credits. */
  lemma IndexingCreditsSeptember5(parse: Parser, shift: Shifter, ids: IdSource)
    ensures var p := Parts(parse, shift, ids, Fixture9_5);
      && |p.indexing| == 3
      && p.indexing[0].credits == Some(1470.0)
      && p.indexing[1].credits == Some(1092.0)
      && p.indexing[2].credits == Some(1968.0)
  {
    UnstructuredSeptember5();
    IndexingRowsShape(parse, shift, ids, Fixture9_5, 0);
    IndexingRowsShape(parse, shift, ids, Fixture9_5, 1);
    IndexingRowsShape(parse, shift, ids, Fixture9_5, 2);
  }

  /** Every name ingested on 5 September is also indexed. */
  lemma NamesSeptember5()
    ensures NamesOf(FilesOf(Fixture9_5, BatchDataPipeline)) <= NamesOf(FilesOf(Fixture9_5, UnstructuredDataProcessed))
  {
    var fs := FilesOf(Fixture9_5, BatchDataPipeline);
    var u := FilesOf(Fixture9_5, UnstructuredDataProcessed);
    UnstructuredSeptember5();
    assert fs[0].fileName == "User manual.pdf" && fs[1].fileName == "Product catalog.html";
    assert fs[2].fileName == "Customer data.png" && |fs| == 3;
    forall n | n in NamesOf(fs) ensures n in NamesOf(u) {
      var i :| 0 <= i < |fs| && fs[i].fileName == n;
      assert u[i].fileName == n;
    }
  }

  /** So the ledger of 5 September adds no row of its own and its credits are the
      chart's indexing bar. */
  lemma CreditsOfSeptember5(parse: Parser, shift: Shifter, ids: IdSource)
    ensures Parts(parse, shift, ids, Fixture9_5).synthesized == []
    ensures CreditSum(Ledger(parse, shift, ids, Fixture9_5)) == 4530.0
  {
    NamesSeptember5();
    IndexingSeptember5();
    LedgerCreditsParity(parse, shift, ids, Fixture9_5);
  }

  /** The files of 10 September. */
  lemma FilesSeptember10()
    ensures var fs := FilesOf(Fixture9_10, BatchDataPipeline);
      NamesOf(fs) == {"Wednesday pipeline.pdf", "Midweek batch.html"}
    ensures var u := FilesOf(Fixture9_10, UnstructuredDataProcessed);
      NamesOf(u) == {"Wednesday files.pdf", "Midweek data.html", "Midweek images.png", "Midweek report.docx"}
  {
    var fs := FilesOf(Fixture9_10, BatchDataPipeline);
    assert fs[0].fileName == "Wednesday pipeline.pdf" && fs[1].fileName == "Midweek batch.html";
    var u := FilesOf(Fixture9_10, UnstructuredDataProcessed);
    assert u[0].fileName == "Wednesday files.pdf" && u[1].fileName == "Midweek data.html";
    assert u[2].fileName == "Midweek images.png" && u[3].fileName == "Midweek report.docx";
  }

  /** A list without repetitions whose members are exactly two different values has
      length two. */
  lemma DistinctPair(s: seq<string>, a: string, b: string)
    requires Distinct(s) && a != b
    requires forall n :: n in s <==> n == a || n == b
    ensures |s| == 2
  {
    assert a in s && b in s;
    var i :| 0 <= i < |s| && s[i] == a;
    var j :| 0 <= j < |s| && s[j] == b;
    if |s| > 2 {
      Pigeonhole(s, a, b);
      assert false;
    }
  }

  /** Three entries drawn from two values repeat one. */
  lemma Pigeonhole(s: seq<string>, a: string, b: string)
    requires |s| > 2
    requires forall n :: n in s ==> n == a || n == b
    ensures !Distinct(s)
  {
    assert s[0] in s && s[1] in s && s[2] in s;
  }

  /** A date whose two ingested names are both missing from its indexing events gets
      two synthesised rows, one per name. */
  lemma TwoSynthesized(parse: Parser, shift: Shifter, ids: IdSource, m: MeterFiles, a: string, b: string)
    requires a != b
    requires NamesOf(FilesOf(m, BatchDataPipeline)) == {a, b}
    requires a !in NamesOf(FilesOf(m, UnstructuredDataProcessed)) && b !in NamesOf(FilesOf(m, UnstructuredDataProcessed))
    ensures var p := Parts(parse, shift, ids, m);
      && |p.synthesized| == 2
      && (forall i :: 0 <= i < 2 ==> p.synthesized[i].fileName in {a, b})
      && p.synthesized[0].fileName != p.synthesized[1].fileName
  {
    var p := Parts(parse, shift, ids, m);
    var u := Unindexed(p.fileMap.keys, NamesOf(FilesOf(m, UnstructuredDataProcessed)));
    SynthesizedNames(parse, shift, ids, m);
    SynthesizedShape(parse, shift, ids, m);
    RowsOfPair(u, p.synthesized, NamesOf(FilesOf(m, BatchDataPipeline)), NamesOf(FilesOf(m, UnstructuredDataProcessed)), a, b);
  }

  /** Rows named after the distinct names of `pipeline` outside `indexed`, when those
      are exactly two, are two rows with those names. */
  lemma RowsOfPair(u: seq<string>, rows: seq<FlatTableRow>, pipeline: set<string>, indexed: set<string>, a: string, b: string)
    requires a != b && Distinct(u)
    requires pipeline == {a, b} && a !in indexed && b !in indexed
    requires forall n :: n in u <==> n in pipeline && n !in indexed
    requires |rows| == |u| && forall i :: 0 <= i < |u| ==> rows[i].fileName == u[i]
    ensures |rows| == 2 && forall i :: 0 <= i < 2 ==> rows[i].fileName in {a, b}
    ensures rows[0].fileName != rows[1].fileName
  {
    DistinctPair(u, a, b);
    assert forall i :: 0 <= i < |u| ==> u[i] in u;
  }

  /** Neither pipeline file of 10 September has an indexing event of the same name,
      so the ledger synthesises exactly two Indexing rows for the day, one for each. */
  lemma SynthesizedOfSeptember10(parse: Parser, shift: Shifter, ids: IdSource)
    ensures var p := Parts(parse, shift, ids, Fixture9_10);
      && |p.synthesized| == 2
      && (forall i :: 0 <= i < 2 ==> p.synthesized[i].fileName in {"Wednesday pipeline.pdf", "Midweek batch.html"})
      && p.synthesized[0].fileName != p.synthesized[1].fileName
  {
    FilesSeptember10();
    TwoSynthesized(parse, shift, ids, Fixture9_10, "Wednesday pipeline.pdf", "Midweek batch.html");
  }

  /** The Ingestion row of a name that only one pipeline file carries is that file's
      row. */
  lemma UniqueIngestionRow(parse: Parser, shift: Shifter, ids: IdSource, m: MeterFiles, f: FileDetail, r: FlatTableRow)
    requires forall g :: g in FilesOf(m, BatchDataPipeline) && g.fileName == f.fileName ==> g == f
    requires r in Parts(parse, shift, ids, m).ingestion && r.fileName == f.fileName
    ensures r.time == f.updateTime && r.size == SizeMB(f)
  {
    var fs := FilesOf(m, BatchDataPipeline);
    var bs := Group(parse, ids, SortByTime(parse, fs));
    GroupFiles(parse, ids, SortByTime(parse, fs));
    UniqueRowOfBatches(bs, fs, f, r);
  }

  /** The same, for any batches whose members are the pipeline files. */
  lemma UniqueRowOfBatches(bs: seq<Batch>, fs: seq<FileDetail>, f: FileDetail, r: FlatTableRow)
    requires multiset(AllFiles(bs)) == multiset(fs)
    requires forall g :: g in fs && g.fileName == f.fileName ==> g == f
    requires r in IngestionRows(bs) && r.fileName == f.fileName
    ensures r.time == f.updateTime && r.size == SizeMB(f)
  {
    IngestionRowsFromBatches(bs);
    var x :| 0 <= x < |IngestionRows(bs)| && IngestionRows(bs)[x] == r;
    assert RowOfSomeMember(bs, IngestionRows(bs)[x]);
    var j, k :| 0 <= j < |bs| && 0 <= k < |bs[j].files| && r == IngestionRow(bs[j].files[k], bs[j].id);
    AllFilesMember(bs, j, k);
    assert bs[j].files[k] in multiset(AllFiles(bs));
  }

  /** An ingested file whose name no other pipeline file carries and no indexing
      event carries gets a synthesised row: its name, its time shifted, its size,
      and 60 credits per MB. */
  lemma SynthesizedOfUnique(parse: Parser, shift: Shifter, ids: IdSource, m: MeterFiles, f: FileDetail)
    requires f in FilesOf(m, BatchDataPipeline)
    requires forall g :: g in FilesOf(m, BatchDataPipeline) && g.fileName == f.fileName ==> g == f
    requires f.fileName !in NamesOf(FilesOf(m, UnstructuredDataProcessed))
    ensures var p := Parts(parse, shift, ids, m);
      exists k :: 0 <= k < |p.synthesized| && p.synthesized[k].fileName == f.fileName
        && p.synthesized[k].time == shift(f.updateTime) && p.synthesized[k].size == SizeMB(f)
        && p.synthesized[k].credits == Some(IndexingCredits(f))
  {
    var p := Parts(parse, shift, ids, m);
    var u := Unindexed(p.fileMap.keys, NamesOf(FilesOf(m, UnstructuredDataProcessed)));
    SynthesizedNames(parse, shift, ids, m);
    var fs := FilesOf(m, BatchDataPipeline);
    var i :| 0 <= i < |fs| && fs[i] == f;
    assert f.fileName in NamesOf(fs);
    assert f.fileName in u;
    var k :| 0 <= k < |u| && u[k] == f.fileName;
    SynthesizedAt(parse, shift, ids, m, f, k);
  }

  /** The synthesised row at a given position of the unindexed names. */
  lemma SynthesizedAt(parse: Parser, shift: Shifter, ids: IdSource, m: MeterFiles, f: FileDetail, k: nat)
    requires forall g :: g in FilesOf(m, BatchDataPipeline) && g.fileName == f.fileName ==> g == f
    requires var p := Parts(parse, shift, ids, m);
      var u := Unindexed(p.fileMap.keys, NamesOf(FilesOf(m, UnstructuredDataProcessed)));
      k < |u| && u[k] == f.fileName
    ensures var p := Parts(parse, shift, ids, m);
      && k < |p.synthesized| && p.synthesized[k].fileName == f.fileName
      && p.synthesized[k].time == shift(f.updateTime) && p.synthesized[k].size == SizeMB(f)
      && p.synthesized[k].credits == Some(IndexingCredits(f))
  {
    var p := Parts(parse, shift, ids, m);
    SynthesizedShape(parse, shift, ids, m);
    var first := FindIngestionRow(p.ingestion, f.fileName).value;
    var x :| 0 <= x < |p.ingestion| && p.ingestion[x] == first;
    UniqueIngestionRow(parse, shift, ids, m, f, first);
  }

  /** The Wednesday pipeline file of 10 September: 16.4 MB at 11:00, not indexed. */
  lemma WednesdayPipeline()
    ensures var fs := FilesOf(Fixture9_10, BatchDataPipeline);
      var f := fs[0];
      && f in fs && f.fileName == "Wednesday pipeline.pdf"
      && f.updateTime == "September 10 11:00" && SizeMB(f) == 16.4
      && (forall g :: g in fs && g.fileName == f.fileName ==> g == f)
      && f.fileName !in NamesOf(FilesOf(Fixture9_10, UnstructuredDataProcessed))
  {
    FilesSeptember10();
  }

  /** With the ledger's own time shift, 10 September gets the row "Wednesday
      pipeline.pdf" at "September 10 12:00", 16.4 MB, 984 credits. */
  lemma WednesdaySynthesized(parse: Parser, ids: IdSource)
    ensures var p := Parts(parse, SynthTime, ids, Fixture9_10);
      exists k :: 0 <= k < |p.synthesized| && p.synthesized[k].fileName == "Wednesday pipeline.pdf"
        && p.synthesized[k].time == "September 10 12:00" && p.synthesized[k].size == 16.4
        && p.synthesized[k].credits == Some(984.0)
  {
    WednesdayPipeline();
    SynthTimeSeptember10At1100();
    var f := FilesOf(Fixture9_10, BatchDataPipeline)[0];
    SynthesizedOfUnique(parse, SynthTime, ids, Fixture9_10, f);
  }
}
