/** The file-details ledger: the files shown for a period or a date, the grouping of
    ingestion events into processing batches, and the flat table of ingestion and
    indexing events with their credits. */
module FileDetails {
  import opened Types
  import opened Text
  import opened MockData
  import opened DataGenerator

  // ---------------------------------------------------------------------------
  // Files per meter for the period, or for one selected date

  /** `dateFiles[meter]`: `None` when the date has no key for that meter. */
  function MeterList(m: MeterFiles, meter: Meter): Option<seq<FileDetail>> {
    match meter
    case UnstructuredDataProcessed => m.unstructured
    case BatchDataPipeline => m.pipeline
  }

  /** The concatenation of a list of lists, in order. */
  function Concat(ls: seq<seq<FileDetail>>): (r: seq<FileDetail>)
    ensures |ls| == 0 ==> r == []
  {
    if ls == [] then [] else Concat(ls[..|ls| - 1]) + ls[|ls| - 1]
  }

  /** Each date's list for one meter, an absent key counting as the empty list. */
  function MeterColumn(feed: DateFeed, meter: Meter): seq<seq<FileDetail>> {
    seq(|feed|, i requires 0 <= i < |feed| => FilesOf(feed[i].1, meter))
  }

  /** The aggregate over all dates of the period: the meter key is present exactly
      when some date has it, and then holds the plain concatenation of every date's
      list in date-key order. */
  function PeriodList(feed: DateFeed, meter: Meter): Option<seq<FileDetail>> {
    if SomeDateHas(feed, meter) then Some(Concat(MeterColumn(feed, meter))) else None
  }

  /** Some date of the feed has the meter key. */
  predicate SomeDateHas(feed: DateFeed, meter: Meter) {
    exists i :: 0 <= i < |feed| && MeterList(feed[i].1, meter).Some?
  }

  function PeriodFiles(feed: DateFeed): MeterFiles {
    MeterFiles(PeriodList(feed, UnstructuredDataProcessed), PeriodList(feed, BatchDataPipeline))
  }

  /** `fileDetails[date] || {}`. */
  function DateEntry(feed: DateFeed, date: Day): (m: MeterFiles)
    ensures (forall i :: 0 <= i < |feed| ==> feed[i].0 != date) ==> m == NoMeterFiles
  {
    if feed == [] then NoMeterFiles
    else if feed[0].0 == date then feed[0].1
    else DateEntry(feed[1..], date)
  }

  /** The entry of a date is the one stored under its first occurrence. */
  lemma {:induction false} DateEntryFirst(feed: DateFeed, date: Day, i: nat)
    requires i < |feed| && feed[i].0 == date
    requires forall k :: 0 <= k < i ==> feed[k].0 != date
    ensures DateEntry(feed, date) == feed[i].1
  {
    if i > 0 {
      DateEntryFirst(feed[1..], date, i - 1);
    }
  }

  lemma PeriodListStep(feed: DateFeed, i: nat, meter: Meter)
    requires i < |feed|
    ensures PeriodList(feed[..i + 1], meter)
      == match MeterList(feed[i].1, meter)
         case None => PeriodList(feed[..i], meter)
         case Some(fs) => Some(PeriodList(feed[..i], meter).GetOr([]) + fs)
  {
    ColumnSnoc(feed, i, meter);
    PeriodListOrEmpty(feed[..i], meter);
    SomeDateHasSnoc(feed, i, meter);
    if MeterList(feed[i].1, meter).None? {
      assert FilesOf(feed[i].1, meter) == [];
      assert Concat(MeterColumn(feed[..i], meter)) + [] == Concat(MeterColumn(feed[..i], meter));
    }
  }

  lemma ColumnSnoc(feed: DateFeed, i: nat, meter: Meter)
    requires i < |feed|
    ensures Concat(MeterColumn(feed[..i + 1], meter)) == Concat(MeterColumn(feed[..i], meter)) + FilesOf(feed[i].1, meter)
  {
    var a, b := feed[..i], feed[..i + 1];
    assert b[..i] == a && b[i] == feed[i];
    assert MeterColumn(b, meter)[..i] == MeterColumn(a, meter);
  }

  /** Without the key on any date the concatenation is empty. */
  lemma PeriodListOrEmpty(feed: DateFeed, meter: Meter)
    ensures PeriodList(feed, meter).GetOr([]) == Concat(MeterColumn(feed, meter))
  {
    if !SomeDateHas(feed, meter) {
      forall k | 0 <= k < |feed| ensures MeterColumn(feed, meter)[k] == [] {
        assert MeterList(feed[k].1, meter).None?;
      }
      ConcatOfEmpties(MeterColumn(feed, meter));
    }
  }

  lemma SomeDateHasSnoc(feed: DateFeed, i: nat, meter: Meter)
    requires i < |feed|
    ensures SomeDateHas(feed[..i + 1], meter) <==> SomeDateHas(feed[..i], meter) || MeterList(feed[i].1, meter).Some?
  {
    var a, b := feed[..i], feed[..i + 1];
    if SomeDateHas(b, meter) && MeterList(feed[i].1, meter).None? {
      var k :| 0 <= k < |b| && MeterList(b[k].1, meter).Some?;
      assert k < i && a[k] == b[k];
    }
    if SomeDateHas(a, meter) {
      var k :| 0 <= k < |a| && MeterList(a[k].1, meter).Some?;
      assert b[k] == a[k];
    }
    if MeterList(feed[i].1, meter).Some? {
      assert MeterList(b[i].1, meter).Some?;
    }
  }

  lemma {:induction false} ConcatOfEmpties(ls: seq<seq<FileDetail>>)
    requires forall i :: 0 <= i < |ls| ==> ls[i] == []
    ensures Concat(ls) == []
  {
    if ls != [] {
      ConcatOfEmpties(ls[..|ls| - 1]);
    }
  }

  /** `filesByMeter`: with no selected date, every meter list of the period
      concatenated across the dates; otherwise the selected date's entry. */
  method FilesByMeter(feed: DateFeed, selectedDate: Option<Day>) returns (result: MeterFiles)
    ensures selectedDate.None? ==> result == PeriodFiles(feed)
    ensures selectedDate.Some? ==> result == DateEntry(feed, selectedDate.value)
  {
    if selectedDate.None? {
      result := NoMeterFiles;
      for i := 0 to |feed|
        invariant result == PeriodFiles(feed[..i])
      {
        var dateFiles := feed[i].1;
        PeriodListStep(feed, i, UnstructuredDataProcessed);
        PeriodListStep(feed, i, BatchDataPipeline);
        if dateFiles.unstructured.Some? {
          result := result.(unstructured := Some(result.unstructured.GetOr([]) + dateFiles.unstructured.value));
        }
        if dateFiles.pipeline.Some? {
          result := result.(pipeline := Some(result.pipeline.GetOr([]) + dateFiles.pipeline.value));
        }
      }
      assert feed[..|feed|] == feed;
    } else {
      result := DateEntry(feed, selectedDate.value);
    }
  }

  // ---------------------------------------------------------------------------
  // Ordering ingestion files by their parsed (day bucket, minute) key

  /** The parser that turns a timestamp into its (day bucket, minute) key. The sort
      and the batching below hold for any parser; the ledger uses
      `ParseTimeForGrouping`. */
  type Parser = string -> TimeKey

  function KeyOf(parse: Parser, f: FileDetail): TimeKey {
    parse(f.updateTime)
  }

  /** The comparator: day buckets in code-unit order, then minutes ascending. */
  predicate KeyLess(a: TimeKey, b: TimeKey) {
    StrLess(a.dateKey, b.dateKey) || (a.dateKey == b.dateKey && a.minutes < b.minutes)
  }

  predicate KeyLeq(a: TimeKey, b: TimeKey) {
    a == b || KeyLess(a, b)
  }

  lemma KeyLessTotal(a: TimeKey, b: TimeKey)
    ensures a == b || KeyLess(a, b) || KeyLess(b, a)
  {
    StrLessTotal(a.dateKey, b.dateKey);
  }

  lemma KeyLeqTransitive(a: TimeKey, b: TimeKey, c: TimeKey)
    requires KeyLeq(a, b) && KeyLeq(b, c)
    ensures KeyLeq(a, c)
  {
    if StrLess(a.dateKey, b.dateKey) && StrLess(b.dateKey, c.dateKey) {
      StrLessTransitive(a.dateKey, b.dateKey, c.dateKey);
    }
    if StrLess(a.dateKey, b.dateKey) && b.dateKey == c.dateKey {
      StrLessIrreflexive(a.dateKey);
    }
    if StrLess(b.dateKey, c.dateKey) && a.dateKey == b.dateKey {
      StrLessIrreflexive(b.dateKey);
    }
    if a.dateKey == c.dateKey && StrLess(a.dateKey, b.dateKey) && StrLess(b.dateKey, c.dateKey) {
      StrLessAsymmetric(a.dateKey, b.dateKey);
    }
  }

  predicate SortedByTime(parse: Parser, fs: seq<FileDetail>) {
    forall i, j :: 0 <= i < j < |fs| ==> KeyLeq(KeyOf(parse, fs[i]), KeyOf(parse, fs[j]))
  }

  /** Inserts `f` before the first element whose key is not below its own. */
  function InsertByTime(parse: Parser, f: FileDetail, fs: seq<FileDetail>): (r: seq<FileDetail>)
    requires SortedByTime(parse, fs)
    ensures multiset(r) == multiset(fs) + multiset{f}
    ensures SortedByTime(parse, r)
  {
    if fs == [] then [f]
    else if KeyLeq(KeyOf(parse, f), KeyOf(parse, fs[0])) then
      InsertInFront(parse, f, fs);
      [f] + fs
    else
      var t := InsertByTime(parse, f, fs[1..]);
      InsertBehindHead(parse, f, fs, t);
      [fs[0]] + t
  }

  /** A list stays sorted with an element in front that is at most every element. */
  lemma ConsSorted(parse: Parser, x: FileDetail, t: seq<FileDetail>)
    requires SortedByTime(parse, t)
    requires forall j :: 0 <= j < |t| ==> KeyLeq(KeyOf(parse, x), KeyOf(parse, t[j]))
    ensures SortedByTime(parse, [x] + t)
  {
    var r := [x] + t;
    forall i, j | 0 <= i < j < |r| ensures KeyLeq(KeyOf(parse, r[i]), KeyOf(parse, r[j])) {
      assert r[j] == t[j - 1];
      if i > 0 { assert r[i] == t[i - 1]; }
    }
  }

  lemma InsertInFront(parse: Parser, f: FileDetail, fs: seq<FileDetail>)
    requires SortedByTime(parse, fs) && fs != []
    requires KeyLeq(KeyOf(parse, f), KeyOf(parse, fs[0]))
    ensures SortedByTime(parse, [f] + fs)
  {
    forall j | 0 <= j < |fs| ensures KeyLeq(KeyOf(parse, f), KeyOf(parse, fs[j])) {
      if j > 0 { KeyLeqTransitive(KeyOf(parse, f), KeyOf(parse, fs[0]), KeyOf(parse, fs[j])); }
    }
    ConsSorted(parse, f, fs);
  }

  lemma InsertBehindHead(parse: Parser, f: FileDetail, fs: seq<FileDetail>, t: seq<FileDetail>)
    requires SortedByTime(parse, fs) && fs != []
    requires !KeyLeq(KeyOf(parse, f), KeyOf(parse, fs[0]))
    requires SortedByTime(parse, t) && multiset(t) == multiset(fs[1..]) + multiset{f}
    ensures SortedByTime(parse, [fs[0]] + t)
    ensures multiset([fs[0]] + t) == multiset(fs) + multiset{f}
  {
    KeyLessTotal(KeyOf(parse, f), KeyOf(parse, fs[0]));
    assert fs == [fs[0]] + fs[1..];
    forall j | 0 <= j < |t| ensures KeyLeq(KeyOf(parse, fs[0]), KeyOf(parse, t[j])) {
      assert t[j] in multiset(t);
      if t[j] != f {
        assert t[j] in multiset(fs[1..]);
        var k :| 1 <= k < |fs| && fs[k] == t[j];
      }
    }
    ConsSorted(parse, fs[0], t);
  }

  /** `[...pipelineFiles].sort(comparator)`: the library sort is stable, so files
      with equal keys keep their feed order. */
  function SortByTime(parse: Parser, fs: seq<FileDetail>): (r: seq<FileDetail>)
    ensures multiset(r) == multiset(fs)
    ensures SortedByTime(parse, r)
  {
    if fs == [] then [] else
      assert fs == [fs[0]] + fs[1..];
      InsertByTime(parse, fs[0], SortByTime(parse, fs[1..]))
  }

  /** The files whose key equals `k`, in order. */
  function WithKey(parse: Parser, fs: seq<FileDetail>, k: TimeKey): seq<FileDetail> {
    if fs == [] then []
    else (if KeyOf(parse, fs[0]) == k then [fs[0]] else []) + WithKey(parse, fs[1..], k)
  }

  lemma WithKeyCons(parse: Parser, x: FileDetail, xs: seq<FileDetail>, k: TimeKey)
    ensures WithKey(parse, [x] + xs, k) == (if KeyOf(parse, x) == k then [x] else []) + WithKey(parse, xs, k)
  {
    assert ([x] + xs)[0] == x && ([x] + xs)[1..] == xs;
  }

  lemma {:induction false} InsertByTimeWithKey(parse: Parser, f: FileDetail, fs: seq<FileDetail>, k: TimeKey)
    requires SortedByTime(parse, fs)
    ensures WithKey(parse, InsertByTime(parse, f, fs), k)
      == (if KeyOf(parse, f) == k then [f] else []) + WithKey(parse, fs, k)
  {
    if fs == [] {
      WithKeyCons(parse, f, [], k);
    } else if KeyLeq(KeyOf(parse, f), KeyOf(parse, fs[0])) {
      WithKeyCons(parse, f, fs, k);
    } else {
      var t := InsertByTime(parse, f, fs[1..]);
      InsertByTimeWithKey(parse, f, fs[1..], k);
      assert InsertByTime(parse, f, fs) == [fs[0]] + t;
      WithKeyBehindHead(parse, f, fs, t, k);
    }
  }

  /** Putting the head of `fs` in front of `t` keeps the files of key `k` in order,
      when `t` holds those of `fs[1..]` and `f`, and `f` has a different key from
      the head. */
  lemma WithKeyBehindHead(parse: Parser, f: FileDetail, fs: seq<FileDetail>, t: seq<FileDetail>, k: TimeKey)
    requires fs != [] && KeyOf(parse, fs[0]) != KeyOf(parse, f)
    requires WithKey(parse, t, k) == (if KeyOf(parse, f) == k then [f] else []) + WithKey(parse, fs[1..], k)
    ensures WithKey(parse, [fs[0]] + t, k) == (if KeyOf(parse, f) == k then [f] else []) + WithKey(parse, fs, k)
  {
    WithKeyCons(parse, fs[0], t, k);
    WithKeyCons(parse, fs[0], fs[1..], k);
    assert fs == [fs[0]] + fs[1..];
  }

  /** Stability: the files sharing any one key appear in the sorted list in the
      order they had before sorting. */
  lemma {:induction false} SortByTimeStable(parse: Parser, fs: seq<FileDetail>, k: TimeKey)
    ensures WithKey(parse, SortByTime(parse, fs), k) == WithKey(parse, fs, k)
  {
    if fs != [] {
      SortByTimeStable(parse, fs[1..], k);
      InsertByTimeWithKey(parse, fs[0], SortByTime(parse, fs[1..]), k);
    }
  }

  /** A list already in key order is returned unchanged. */
  lemma {:induction false} SortByTimeSortedIdentity(parse: Parser, fs: seq<FileDetail>)
    requires SortedByTime(parse, fs)
    ensures SortByTime(parse, fs) == fs
  {
    if fs != [] {
      var rest := fs[1..];
      SortedTail(parse, fs);
      SortByTimeSortedIdentity(parse, rest);
      assert SortByTime(parse, fs) == InsertByTime(parse, fs[0], rest);
      if rest != [] {
        assert KeyLeq(KeyOf(parse, fs[0]), KeyOf(parse, rest[0])) by {
          assert rest[0] == fs[1];
        }
      }
      assert fs == [fs[0]] + rest;
    }
  }

  lemma SortedTail(parse: Parser, fs: seq<FileDetail>)
    requires fs != [] && SortedByTime(parse, fs)
    ensures SortedByTime(parse, fs[1..])
  {
    forall i, j | 0 <= i < j < |fs[1..]|
      ensures KeyLeq(KeyOf(parse, fs[1..][i]), KeyOf(parse, fs[1..][j]))
    {
      assert fs[1..][i] == fs[i + 1] && fs[1..][j] == fs[j + 1];
    }
  }

  // ---------------------------------------------------------------------------
  // Grouping the sorted ingestion files into processing batches

  /** A processing batch: its id, the timestamp of the file that opened it, and its
      members in order of assignment. */
  datatype Batch = Batch(id: string, startTime: string, files: seq<FileDetail>)

  /** The id generator `generateProcessingId`, as seen by the ledger: the id for each
      counter value. The ledger instantiates it with `IdsFrom`. */
  type IdSource = nat -> string

  /** `generateProcessingId(n)` when the k-th nibble drawn for counter value `n`
      is `draws(n)(k)`. */
  function IdsFrom(draws: nat -> (nat -> Nibble)): IdSource {
    (n: nat) => GenerateProcessingId(n, draws(n))
  }

  function Abs(x: int): nat {
    if x < 0 then -x else x
  }

  /** A file may join a batch when it is in the same day bucket as the batch's
      start time and at most 30 minutes away from it. */
  predicate Qualifies(parse: Parser, b: Batch, f: FileDetail) {
    var bt := parse(b.startTime);
    var ft := KeyOf(parse, f);
    bt.dateKey == ft.dateKey && Abs(ft.minutes - bt.minutes) <= 30
  }

  function FirstFitFrom(parse: Parser, bs: seq<Batch>, f: FileDetail, i: nat): (r: Option<nat>)
    requires i <= |bs|
    ensures r.Some? ==> i <= r.value < |bs| && Qualifies(parse, bs[r.value], f)
    ensures r.Some? ==> forall j :: i <= j < r.value ==> !Qualifies(parse, bs[j], f)
    ensures r.None? ==> forall j :: i <= j < |bs| ==> !Qualifies(parse, bs[j], f)
    decreases |bs| - i
  {
    if i == |bs| then None
    else if Qualifies(parse, bs[i], f) then Some(i)
    else FirstFitFrom(parse, bs, f, i + 1)
  }

  /** The first batch, in creation order, that the file qualifies for. */
  function FirstFit(parse: Parser, bs: seq<Batch>, f: FileDetail): Option<nat> {
    FirstFitFrom(parse, bs, f, 0)
  }

  /** One step of the grouping: join the first qualifying batch, or open a new one
      whose id uses the number of batches so far as the counter. */
  function Place(parse: Parser, ids: IdSource, bs: seq<Batch>, f: FileDetail): seq<Batch> {
    match FirstFit(parse, bs, f)
    case Some(j) => bs[j := bs[j].(files := bs[j].files + [f])]
    case None => bs + [Batch(ids(|bs|), f.updateTime, [f])]
  }

  /** The batches built from the files, in order. */
  function Group(parse: Parser, ids: IdSource, files: seq<FileDetail>): seq<Batch> {
    if files == [] then []
    else Place(parse, ids, Group(parse, ids, files[..|files| - 1]), files[|files| - 1])
  }

  /** Every batch member, batch by batch. */
  function AllFiles(bs: seq<Batch>): seq<FileDetail> {
    if bs == [] then [] else AllFiles(bs[..|bs| - 1]) + bs[|bs| - 1].files
  }

  /** Ids follow the counter, and the first member is the file that opened the batch. */
  predicate IdsAndAnchors(ids: IdSource, bs: seq<Batch>) {
    forall j :: 0 <= j < |bs| ==>
      && bs[j].id == ids(j)
      && bs[j].files != []
      && bs[j].files[0].updateTime == bs[j].startTime
  }

  /** Every member qualifies for its batch. */
  predicate MembersQualify(parse: Parser, bs: seq<Batch>) {
    forall j, k :: 0 <= j < |bs| && 0 <= k < |bs[j].files| ==> Qualifies(parse, bs[j], bs[j].files[k])
  }

  /** No member qualifies for any earlier batch: each file sits in the first batch
      it fits, and a batch was opened only when no earlier one fitted. */
  predicate FirstFitMembers(parse: Parser, bs: seq<Batch>) {
    forall i, j, k :: 0 <= i < j < |bs| && 0 <= k < |bs[j].files| ==> !Qualifies(parse, bs[i], bs[j].files[k])
  }

  /** The batch invariant. */
  predicate WellBatched(parse: Parser, ids: IdSource, bs: seq<Batch>) {
    IdsAndAnchors(ids, bs) && MembersQualify(parse, bs) && FirstFitMembers(parse, bs)
  }

  lemma JoinWellBatched(parse: Parser, ids: IdSource, bs: seq<Batch>, f: FileDetail, j: nat)
    requires WellBatched(parse, ids, bs)
    requires FirstFit(parse, bs, f) == Some(j)
    ensures WellBatched(parse, ids, bs[j := bs[j].(files := bs[j].files + [f])])
  {
    var r := bs[j := bs[j].(files := bs[j].files + [f])];
    assert |r| == |bs|;
    assert Qualifies(parse, bs[j], f);
    assert IdsAndAnchors(ids, r) by {
      forall x | 0 <= x < |r|
        ensures r[x].id == ids(x) && r[x].files != [] && r[x].files[0].updateTime == r[x].startTime
      {
        if x == j { assert r[x].files[0] == bs[x].files[0]; }
      }
    }
    assert MembersQualify(parse, r) by {
      forall x, k | 0 <= x < |r| && 0 <= k < |r[x].files|
        ensures Qualifies(parse, r[x], r[x].files[k])
      {
        if x == j {
          if k == |bs[j].files| { assert r[x].files[k] == f; } else { assert r[x].files[k] == bs[x].files[k]; }
        }
      }
    }
    assert FirstFitMembers(parse, r) by {
      forall i, x, k | 0 <= i < x < |r| && 0 <= k < |r[x].files|
        ensures !Qualifies(parse, r[i], r[x].files[k])
      {
        assert r[i].startTime == bs[i].startTime;
        if x == j {
          if k == |bs[j].files| { assert r[x].files[k] == f; } else { assert r[x].files[k] == bs[x].files[k]; }
        }
      }
    }
  }

  lemma OpenWellBatched(parse: Parser, ids: IdSource, bs: seq<Batch>, f: FileDetail)
    requires WellBatched(parse, ids, bs)
    requires FirstFit(parse, bs, f).None?
    ensures WellBatched(parse, ids, bs + [Batch(ids(|bs|), f.updateTime, [f])])
  {
    var n := |bs|;
    var r := bs + [Batch(ids(n), f.updateTime, [f])];
    assert Qualifies(parse, r[n], f);
    assert IdsAndAnchors(ids, r) by {
      forall x | 0 <= x < |r|
        ensures r[x].id == ids(x) && r[x].files != [] && r[x].files[0].updateTime == r[x].startTime
      {
        if x < n { assert r[x] == bs[x]; }
      }
    }
    assert MembersQualify(parse, r) by {
      forall x, k | 0 <= x < |r| && 0 <= k < |r[x].files|
        ensures Qualifies(parse, r[x], r[x].files[k])
      {
        if x < n { assert r[x] == bs[x]; }
      }
    }
    assert FirstFitMembers(parse, r) by {
      forall i, x, k | 0 <= i < x < |r| && 0 <= k < |r[x].files|
        ensures !Qualifies(parse, r[i], r[x].files[k])
      {
        assert r[i] == bs[i];
        if x < n { assert r[x] == bs[x]; } else { assert r[x].files[k] == f; }
      }
    }
  }

  lemma PlaceWellBatched(parse: Parser, ids: IdSource, bs: seq<Batch>, f: FileDetail)
    requires WellBatched(parse, ids, bs)
    ensures WellBatched(parse, ids, Place(parse, ids, bs, f))
  {
    match FirstFit(parse, bs, f)
    case Some(j) => JoinWellBatched(parse, ids, bs, f, j);
    case None => OpenWellBatched(parse, ids, bs, f);
  }

  /** The batches of any file list satisfy the batch invariant. */
  lemma {:induction false} GroupWellBatched(parse: Parser, ids: IdSource, files: seq<FileDetail>)
    ensures WellBatched(parse, ids, Group(parse, ids, files))
  {
    if files != [] {
      GroupWellBatched(parse, ids, files[..|files| - 1]);
      PlaceWellBatched(parse, ids, Group(parse, ids, files[..|files| - 1]), files[|files| - 1]);
    }
  }

  lemma {:induction false} AllFilesUpdate(bs: seq<Batch>, j: nat, b: Batch)
    requires j < |bs|
    ensures multiset(AllFiles(bs[j := b])) + multiset(bs[j].files) == multiset(AllFiles(bs)) + multiset(b.files)
  {
    var n := |bs|;
    var r := bs[j := b];
    var init, rinit := bs[..n - 1], r[..n - 1];
    assert AllFiles(r) == AllFiles(rinit) + r[n - 1].files;
    assert AllFiles(bs) == AllFiles(init) + bs[n - 1].files;
    if j == n - 1 {
      assert rinit == init;
    } else {
      UpdateBeforeLast(bs, j, b);
      AllFilesUpdate(init, j, b);
      MultisetShuffle(multiset(AllFiles(rinit)), multiset(AllFiles(init)), multiset(bs[n - 1].files),
                      multiset(bs[j].files), multiset(b.files));
    }
  }

  lemma UpdateBeforeLast(bs: seq<Batch>, j: nat, b: Batch)
    requires j < |bs| - 1
    ensures bs[..|bs| - 1][j] == bs[j]
    ensures bs[j := b][..|bs| - 1] == bs[..|bs| - 1][j := b]
    ensures bs[j := b][|bs| - 1] == bs[|bs| - 1]
  {
  }

  lemma MultisetShuffle(x: multiset<FileDetail>, y: multiset<FileDetail>, z: multiset<FileDetail>,
                        p: multiset<FileDetail>, q: multiset<FileDetail>)
    requires x + p == y + q
    ensures x + z + p == y + z + q
  {
    forall e ensures (x + z + p)[e] == (y + z + q)[e] {
      assert (x + p)[e] == (y + q)[e];
    }
  }

  lemma PlaceFiles(parse: Parser, ids: IdSource, bs: seq<Batch>, f: FileDetail)
    ensures multiset(AllFiles(Place(parse, ids, bs, f))) == multiset(AllFiles(bs)) + multiset{f}
  {
    match FirstFit(parse, bs, f)
    case Some(j) => JoinFiles(bs, j, f);
    case None => OpenFiles(bs, Batch(ids(|bs|), f.updateTime, [f]));
  }

  /** A file joining batch `j` is one more member. */
  lemma JoinFiles(bs: seq<Batch>, j: nat, f: FileDetail)
    requires j < |bs|
    ensures multiset(AllFiles(bs[j := bs[j].(files := bs[j].files + [f])])) == multiset(AllFiles(bs)) + multiset{f}
  {
    var b := bs[j].(files := bs[j].files + [f]);
    AllFilesUpdate(bs, j, b);
    assert multiset(b.files) == multiset(bs[j].files) + multiset{f};
    MultisetCancel(multiset(AllFiles(bs[j := b])), multiset(AllFiles(bs)), multiset(bs[j].files), multiset{f});
  }

  lemma MultisetCancel(x: multiset<FileDetail>, y: multiset<FileDetail>, a: multiset<FileDetail>, z: multiset<FileDetail>)
    requires x + a == y + (a + z)
    ensures x == y + z
  {
    forall e ensures x[e] == (y + z)[e] {
      assert (x + a)[e] == (y + (a + z))[e];
    }
  }

  /** A new batch adds its members. */
  lemma OpenFiles(bs: seq<Batch>, b: Batch)
    ensures multiset(AllFiles(bs + [b])) == multiset(AllFiles(bs)) + multiset(b.files)
  {
    assert (bs + [b])[..|bs|] == bs;
  }

  /** Every file is placed in exactly one batch: the members of all batches are the
      input files, each as often as it occurs. */
  lemma GroupStepFiles(parse: Parser, ids: IdSource, files: seq<FileDetail>)
    requires files != []
    ensures multiset(AllFiles(Group(parse, ids, files)))
         == multiset(AllFiles(Group(parse, ids, files[..|files| - 1]))) + multiset{files[|files| - 1]}
  {
    PlaceFiles(parse, ids, Group(parse, ids, files[..|files| - 1]), files[|files| - 1]);
  }

  lemma {:induction false} GroupFiles(parse: Parser, ids: IdSource, files: seq<FileDetail>)
    ensures multiset(AllFiles(Group(parse, ids, files))) == multiset(files)
  {
    if files != [] {
      var init, last := files[..|files| - 1], files[|files| - 1];
      assert files == init + [last];
      GroupFiles(parse, ids, init);
      GroupStepFiles(parse, ids, files);
    }
  }

  /** The search of the ingestion loop: the first batch the file qualifies for. */
  method FindBatch(parse: Parser, batches: seq<Batch>, file: FileDetail) returns (found: Option<nat>)
    ensures found == FirstFit(parse, batches, file)
  {
    var fileTime := parse(file.updateTime);
    found := None;
    var j := 0;
    while j < |batches|
      invariant 0 <= j <= |batches|
      invariant forall k :: 0 <= k < j ==> !Qualifies(parse, batches[k], file)
    {
      var batchTime := parse(batches[j].startTime);
      if batchTime.dateKey == fileTime.dateKey && Abs(fileTime.minutes - batchTime.minutes) <= 30 {
        found := Some(j);
        return;
      }
      j := j + 1;
    }
  }

  /** The ingestion loop: each sorted file joins the first qualifying batch, or opens
      a new batch with a fresh id; the counter ends at the number of batches. */
  method AssignBatches(parse: Parser, ids: IdSource, sorted: seq<FileDetail>)
    returns (batches: seq<Batch>, counter: nat)
    ensures batches == Group(parse, ids, sorted)
    ensures counter == |batches|
  {
    batches := [];
    counter := 0;
    for i := 0 to |sorted|
      invariant batches == Group(parse, ids, sorted[..i])
      invariant counter == |batches|
    {
      var file := sorted[i];
      var found := FindBatch(parse, batches, file);
      ghost var before := batches;
      if found.None? {
        batches := batches + [Batch(ids(counter), file.updateTime, [])];
        counter := counter + 1;
        found := Some(|batches| - 1);
      }
      var b := found.value;
      batches := batches[b := batches[b].(files := batches[b].files + [file])];
      if b == |before| {
        assert [] + [file] == [file];
        assert batches == before + [Batch(ids(|before|), file.updateTime, [file])];
      }
      assert sorted[..i + 1][..i] == sorted[..i] && sorted[..i + 1][i] == file;
      assert batches == Place(parse, ids, before, file);
    }
    assert sorted[..|sorted|] == sorted;
  }

  // ---------------------------------------------------------------------------
  // Connector of a file: the explicit value, else the file-name hash fallback

  /** `file.connectorType || connectorTypes[hash % 3]`. */
  function ResolveConnectorType(f: FileDetail): ConnectorType {
    match f.connectorType
    case Some(t) => t
    case None => ConnectorTypes[CharCodeSum(f.fileName) % |ConnectorTypes|]
  }

  /** `file.connectorName || connectorNames[connectorType]`: an empty name falls back too. */
  function ResolveConnectorName(f: FileDetail, t: ConnectorType): string {
    match f.connectorName
    case Some(n) => if n == "" then ConnectorNameOf(t) else n
    case None => ConnectorNameOf(t)
  }

  /** A file without connector fields gets the connector its name hashes to. */
  lemma ResolveAgreesWithHash(f: FileDetail)
    requires f.connectorType.None? && (f.connectorName.None? || f.connectorName == Some(""))
    ensures ResolveConnectorType(f) == GetConnectorForFile(f.fileName).connectorType
    ensures ResolveConnectorName(f, ResolveConnectorType(f)) == GetConnectorForFile(f.fileName).name
  {
  }

  /** Spreading `getConnectorForFile(fileName)` into a fixture entry sets no connector
      field, so the derived connector of such an entry is the name-hash fallback, the
      same as for the plain entry. */
  lemma SpreadLeavesFallback(fileName: string, fileType: string, updateTime: string,
                             reason: UpdateReason, size: MB)
    ensures var w := WithConnector(fileName, fileType, updateTime, reason, size);
      var e := Entry(fileName, fileType, updateTime, reason, size);
      && ResolveConnectorType(w) == GetConnectorForFile(fileName).connectorType
      && ResolveConnectorName(w, ResolveConnectorType(w)) == GetConnectorForFile(fileName).name
      && ResolveConnectorType(w) == ResolveConnectorType(e)
      && ResolveConnectorName(w, ResolveConnectorType(w)) == ResolveConnectorName(e, ResolveConnectorType(e))
  {
    ResolveAgreesWithHash(WithConnector(fileName, fileType, updateTime, reason, size));
  }

  // ---------------------------------------------------------------------------
  // Ingestion rows and the file-name map

  /** The Ingestion row of one batch member: no credits, the batch's id. */
  function IngestionRow(f: FileDetail, id: string): FlatTableRow {
    var t := ResolveConnectorType(f);
    FlatTableRow(f.fileName, f.fileType, Ingestion, f.updateTime, SizeMB(f), f.reason,
                 t, ResolveConnectorName(f, t), id, None)
  }

  function BatchRows(b: Batch): seq<FlatTableRow> {
    seq(|b.files|, k requires 0 <= k < |b.files| => IngestionRow(b.files[k], b.id))
  }

  /** The Ingestion rows, batch by batch, each batch's members in order. */
  function IngestionRows(bs: seq<Batch>): seq<FlatTableRow> {
    if bs == [] then [] else IngestionRows(bs[..|bs| - 1]) + BatchRows(bs[|bs| - 1])
  }

  /** What the map keeps per file name. */
  datatype Info = Info(processingId: string, connectorType: ConnectorType,
                       connectorName: string, reason: UpdateReason)

  /** A JavaScript `Map` keyed by file name: its keys in first-insertion order, and
      the current value of each key. */
  datatype NameMap = NameMap(keys: seq<string>, values: map<string, Info>)

  const EmptyNameMap := NameMap([], map[])

  predicate ValidNameMap(m: NameMap) {
    && Distinct(m.keys)
    && (forall k :: k in m.values ==> k in m.keys)
    && (forall k :: k in m.keys ==> k in m.values)
  }

  /** `map.set(k, v)`: a new key goes to the end; an existing key keeps its place and
      takes the new value. */
  function MapSet(m: NameMap, k: string, v: Info): NameMap {
    NameMap(if k in m.values then m.keys else m.keys + [k], m.values[k := v])
  }

  function InfoOf(r: FlatTableRow): Info {
    Info(r.ingestionId, r.connectorType, r.udmoName, r.reason)
  }

  /** The map after setting one entry per Ingestion row, in row order. */
  function IngestionMap(rows: seq<FlatTableRow>): NameMap {
    if rows == [] then EmptyNameMap
    else MapSet(IngestionMap(rows[..|rows| - 1]), rows[|rows| - 1].fileName, InfoOf(rows[|rows| - 1]))
  }

  /** The row at `i` is the last one with its file name. */
  predicate LastWithName(rows: seq<FlatTableRow>, i: nat) {
    i < |rows| && forall j :: i < j < |rows| ==> rows[j].fileName != rows[i].fileName
  }

  /** `name` is the file name of some row. */
  predicate HasRowNamed(rows: seq<FlatTableRow>, name: string) {
    exists i :: 0 <= i < |rows| && rows[i].fileName == name
  }

  lemma IngestionMapStep(rows: seq<FlatTableRow>)
    requires rows != []
    ensures IngestionMap(rows)
      == MapSet(IngestionMap(rows[..|rows| - 1]), rows[|rows| - 1].fileName, InfoOf(rows[|rows| - 1]))
  {
  }

  /** The map holds exactly the ingested names. */
  lemma {:induction false} IngestionMapMembers(rows: seq<FlatTableRow>)
    ensures forall n :: n in IngestionMap(rows).values <==> HasRowNamed(rows, n)
  {
    if rows != [] {
      var n := |rows|;
      var init := rows[..n - 1];
      IngestionMapMembers(init);
      var m0 := IngestionMap(init);
      var m := IngestionMap(rows);
      IngestionMapStep(rows);
      forall x ensures x in m.values <==> HasRowNamed(rows, x) {
        if x in m0.values {
          var i :| 0 <= i < n - 1 && init[i].fileName == x;
          assert rows[i] == init[i];
        }
        if HasRowNamed(rows, x) {
          var i :| 0 <= i < n && rows[i].fileName == x;
          if i < n - 1 { assert init[i] == rows[i]; }
        }
      }
    }
  }

  /** The key list holds each mapped name exactly once. */
  lemma {:induction false} IngestionMapValid(rows: seq<FlatTableRow>)
    ensures ValidNameMap(IngestionMap(rows))
  {
    if rows != [] {
      var n := |rows|;
      var init := rows[..n - 1];
      IngestionMapValid(init);
      var m0 := IngestionMap(init);
      IngestionMapStep(rows);
      if rows[n - 1].fileName !in m0.values {
        assert rows[n - 1].fileName !in m0.keys;
      }
    }
  }

  /** The value of a name comes from its LAST Ingestion row (`Map.set` overwrites). */
  lemma {:induction false} IngestionMapLast(rows: seq<FlatTableRow>, i: nat)
    requires LastWithName(rows, i)
    ensures rows[i].fileName in IngestionMap(rows).values
    ensures IngestionMap(rows).values[rows[i].fileName] == InfoOf(rows[i])
  {
    var n := |rows|;
    IngestionMapStep(rows);
    if i < n - 1 {
      var init := rows[..n - 1];
      assert init[i] == rows[i];
      assert LastWithName(init, i);
      IngestionMapLast(init, i);
    }
  }

  /** A row produced from some member of some batch, under that batch's id. */
  predicate RowOfSomeMember(bs: seq<Batch>, r: FlatTableRow) {
    exists j, k :: 0 <= j < |bs| && 0 <= k < |bs[j].files| && r == IngestionRow(bs[j].files[k], bs[j].id)
  }

  /** Each Ingestion row is the row of some member of some batch, under that
      batch's id; there is one row per member. */
  lemma {:induction false} IngestionRowsFromBatches(bs: seq<Batch>)
    ensures |IngestionRows(bs)| == |AllFiles(bs)|
    ensures forall i :: 0 <= i < |IngestionRows(bs)| ==> RowOfSomeMember(bs, IngestionRows(bs)[i])
  {
    if bs != [] {
      var n := |bs|;
      var init := bs[..n - 1];
      IngestionRowsFromBatches(init);
      var rows := IngestionRows(bs);
      assert rows == IngestionRows(init) + BatchRows(bs[n - 1]);
      assert AllFiles(bs) == AllFiles(init) + bs[n - 1].files;
      assert |BatchRows(bs[n - 1])| == |bs[n - 1].files|;
      forall i | 0 <= i < |rows| ensures RowOfSomeMember(bs, rows[i]) {
        if i < |IngestionRows(init)| {
          assert rows[i] == IngestionRows(init)[i];
          assert RowOfSomeMember(init, rows[i]);
          var j, k :| 0 <= j < |init| && 0 <= k < |init[j].files| &&
            rows[i] == IngestionRow(init[j].files[k], init[j].id);
          assert init[j] == bs[j];
        } else {
          var k := i - |IngestionRows(init)|;
          assert rows[i] == BatchRows(bs[n - 1])[k];
        }
      }
    }
  }

  // ---------------------------------------------------------------------------
  // Indexing rows

  /** The Indexing row of an indexing file: 60 credits per MB; the id and the reason
      of the name's ingestion when the name was ingested, else `freshId` and the
      file's own reason. The connector is always the file's own. */
  function IndexingRow(f: FileDetail, info: map<string, Info>, freshId: string): (r: FlatTableRow)
    ensures r.credits == Some(IndexingCredits(f)) && r.actionType == Indexing
    ensures f.fileName in info ==> r.ingestionId == info[f.fileName].processingId && r.reason == info[f.fileName].reason
    ensures f.fileName !in info ==> r.ingestionId == freshId && r.reason == f.reason
  {
    var t := ResolveConnectorType(f);
    var id := if f.fileName in info then info[f.fileName].processingId else freshId;
    var reason := if f.fileName in info then info[f.fileName].reason else f.reason;
    FlatTableRow(f.fileName, f.fileType, Indexing, f.updateTime, SizeMB(f), reason,
                 t, ResolveConnectorName(f, t), id, Some(IndexingCredits(f)))
  }

  /** The number of files whose name was not ingested: each one draws a fresh id. */
  function Unmatched(files: seq<FileDetail>, info: map<string, Info>): nat {
    if files == [] then 0
    else Unmatched(files[..|files| - 1], info) + (if files[|files| - 1].fileName in info then 0 else 1)
  }

  /** The id drawn for the file at `i` when its name was not ingested: the counter
      has advanced once per earlier such file. */
  function FreshId(ids: IdSource, counter0: nat, files: seq<FileDetail>, info: map<string, Info>, i: nat): string
    requires i <= |files|
  {
    ids(counter0 + Unmatched(files[..i], info))
  }

  lemma FreshIdOfPrefix(ids: IdSource, counter0: nat, files: seq<FileDetail>, info: map<string, Info>, n: nat, k: nat)
    requires k <= n <= |files|
    ensures FreshId(ids, counter0, files[..n], info, k) == FreshId(ids, counter0, files, info, k)
  {
    assert files[..n][..k] == files[..k];
  }

  /** The Indexing rows, one per indexing file, in input order; fresh ids continue
      the counter from `counter0`. */
  function IndexingRows(files: seq<FileDetail>, info: map<string, Info>, counter0: nat, ids: IdSource)
    : (rows: seq<FlatTableRow>)
    ensures |rows| == |files|
  {
    seq(|files|, i requires 0 <= i < |files| =>
      IndexingRow(files[i], info, FreshId(ids, counter0, files, info, i)))
  }

  /** Each Indexing row is an Indexing event for the file at its position. */
  lemma IndexingRowsNames(files: seq<FileDetail>, info: map<string, Info>, counter0: nat, ids: IdSource)
    ensures AllIndexing(IndexingRows(files, info, counter0, ids))
    ensures forall i :: 0 <= i < |files| ==> IndexingRows(files, info, counter0, ids)[i].fileName == files[i].fileName
  {
  }

  lemma UnmatchedSnoc(files: seq<FileDetail>, i: nat, info: map<string, Info>)
    requires i < |files|
    ensures Unmatched(files[..i + 1], info) == Unmatched(files[..i], info) + (if files[i].fileName in info then 0 else 1)
  {
    assert files[..i + 1][..i] == files[..i];
  }

  lemma IndexingRowsSnoc(files: seq<FileDetail>, i: nat, info: map<string, Info>, counter0: nat, ids: IdSource)
    requires i < |files|
    ensures IndexingRows(files[..i + 1], info, counter0, ids)
      == IndexingRows(files[..i], info, counter0, ids)
         + [IndexingRow(files[i], info, FreshId(ids, counter0, files, info, i))]
  {
    var a, b := files[..i], files[..i + 1];
    var ra, rb := IndexingRows(a, info, counter0, ids), IndexingRows(b, info, counter0, ids);
    var x := IndexingRow(files[i], info, FreshId(ids, counter0, files, info, i));
    forall k | 0 <= k < i + 1 ensures rb[k] == (ra + [x])[k] {
      FreshIdOfPrefix(ids, counter0, files, info, i + 1, k);
      if k < i {
        FreshIdOfPrefix(ids, counter0, files, info, i, k);
        assert rb[k] == ra[k];
      }
    }
    assert rb == ra + [x];
  }

  /** The file names of a list. */
  function NamesOf(files: seq<FileDetail>): set<string> {
    set i | 0 <= i < |files| :: files[i].fileName
  }

  // ---------------------------------------------------------------------------
  // Synthesised Indexing rows for files that were ingested but never indexed

  /** `data.find(row => row.fileName === name && row.actionType === 'Ingestion')`. */
  function FindIngestionRow(rows: seq<FlatTableRow>, name: string): (r: Option<FlatTableRow>)
    ensures r.Some? ==> exists i :: (0 <= i < |rows| && rows[i] == r.value &&
                                     forall j :: 0 <= j < i ==> !(rows[j].fileName == name && rows[j].actionType == Ingestion))
    ensures r.Some? ==> r.value.fileName == name && r.value.actionType == Ingestion
    ensures r.None? <==> forall i :: 0 <= i < |rows| ==> !(rows[i].fileName == name && rows[i].actionType == Ingestion)
  {
    if rows == [] then None
    else if rows[0].fileName == name && rows[0].actionType == Ingestion then Some(rows[0])
    else
      var r := FindIngestionRow(rows[1..], name);
      assert forall i :: 1 <= i < |rows| ==> rows[i] == rows[1..][i - 1];
      if r.Some? then
        var i :| 0 <= i < |rows[1..]| && rows[1..][i] == r.value &&
          (forall j :: 0 <= j < i ==> !(rows[1..][j].fileName == name && rows[1..][j].actionType == Ingestion));
        assert rows[i + 1] == r.value;
        r
      else r
  }

  predicate AllIndexing(rows: seq<FlatTableRow>) {
    forall i :: 0 <= i < |rows| ==> rows[i].actionType == Indexing
  }

  /** Rows appended after the Ingestion rows are Indexing rows, so the search still
      finds the same Ingestion row. */
  lemma FindIgnoresIndexingRows(rows: seq<FlatTableRow>, more: seq<FlatTableRow>, name: string)
    requires AllIndexing(more)
    ensures FindIngestionRow(rows + more, name) == FindIngestionRow(rows, name)
    decreases |rows|
  {
    if rows == [] {
      assert rows + more == more;
      assert FindIngestionRow(more, name).None?;
    } else {
      assert (rows + more)[1..] == rows[1..] + more;
      FindIgnoresIndexingRows(rows[1..], more, name);
    }
  }

  /** The synthesised time from the match of the time pattern: one hour later modulo
      24, zero-padded, keeping month, day and minute as written; " +1h" appended
      when the pattern does not match. */
  function ShiftHour(time: string, mt: Option<TimeMatch>): string
    requires mt.Some? ==> WellFormedMatch(mt.value)
  {
    match mt
    case Some(m) =>
      m.month + " " + m.day + " " + PadStart2(NatToString((DigitsValue(m.hour) + 1) % 24)) + ":" + m.minute
    case None => time + " +1h"
  }

  /** The synthesised time of every Ingestion row; the ledger instantiates it with
      `SynthTime`. */
  type Shifter = string -> string

  function SynthTime(time: string): string {
    ShiftHour(time, MatchTime(time))
  }

  /** The synthesised Indexing row: the fields of the name's first Ingestion row, the
      synthesised time, 60 credits per MB, and the map's processing id. */
  function SynthRow(shift: Shifter, first: FlatTableRow, id: string): FlatTableRow {
    FlatTableRow(first.fileName, first.fileType, Indexing, shift(first.time), first.size,
                 first.reason, first.connectorType, first.udmoName, id, Some(CreditsOfMB(first.size)))
  }

  /** The row synthesised for one map key: none when the name was indexed. */
  function SynthFor(shift: Shifter, name: string, info: map<string, Info>, indexed: set<string>,
                    ingestion: seq<FlatTableRow>): seq<FlatTableRow>
  {
    if name in indexed || name !in info then []
    else match FindIngestionRow(ingestion, name)
      case Some(r) => [SynthRow(shift, r, info[name].processingId)]
      case None => []
  }

  /** The synthesised rows, in the map's key order. */
  function SynthRows(shift: Shifter, keys: seq<string>, info: map<string, Info>, indexed: set<string>,
                     ingestion: seq<FlatTableRow>): (rows: seq<FlatTableRow>)
    ensures AllIndexing(rows)
  {
    if keys == [] then []
    else SynthRows(shift, keys[..|keys| - 1], info, indexed, ingestion) + SynthFor(shift, keys[|keys| - 1], info, indexed, ingestion)
  }

  // ---------------------------------------------------------------------------
  // The whole ledger

  /** The intermediate results of the ledger derivation. */
  datatype LedgerParts = LedgerParts(
    batches: seq<Batch>,
    ingestion: seq<FlatTableRow>,
    fileMap: NameMap,
    indexing: seq<FlatTableRow>,
    synthesized: seq<FlatTableRow>)

  function Parts(parse: Parser, shift: Shifter, ids: IdSource, filesByMeter: MeterFiles): LedgerParts {
    var pipeline := FilesOf(filesByMeter, BatchDataPipeline);
    PartsOf(Group(parse, ids, SortByTime(parse, pipeline)), FilesOf(filesByMeter, UnstructuredDataProcessed), shift, ids)
  }

  /** The parts derived from the batches and the indexing files. */
  function PartsOf(bs: seq<Batch>, unstructured: seq<FileDetail>, shift: Shifter, ids: IdSource): LedgerParts {
    var ingestion := IngestionRows(bs);
    var m := IngestionMap(ingestion);
    var indexing := IndexingRows(unstructured, m.values, |bs|, ids);
    LedgerParts(bs, ingestion, m, indexing, SynthRows(shift, m.keys, m.values, NamesOf(unstructured), ingestion))
  }

  /** The flat table: Ingestion rows, then Indexing rows, then synthesised rows. */
  function Ledger(parse: Parser, shift: Shifter, ids: IdSource, filesByMeter: MeterFiles): seq<FlatTableRow> {
    var p := Parts(parse, shift, ids, filesByMeter);
    p.ingestion + p.indexing + p.synthesized
  }

  /** One batch of the Ingestion loop: a row and a map entry per member. */
  method EmitBatch(data0: seq<FlatTableRow>, fileMap0: NameMap, batch: Batch)
    returns (data: seq<FlatTableRow>, fileMap: NameMap)
    requires fileMap0 == IngestionMap(data0)
    ensures data == data0 + BatchRows(batch)
    ensures fileMap == IngestionMap(data)
  {
    data, fileMap := data0, fileMap0;
    for k := 0 to |batch.files|
      invariant data == data0 + BatchRows(batch)[..k]
      invariant fileMap == IngestionMap(data)
    {
      var file := batch.files[k];
      var connectorType := ResolveConnectorType(file);
      var connectorName := ResolveConnectorName(file, connectorType);
      var row := IngestionRow(file, batch.id);
      EmitBatchStep(data0, batch, k, data);
      fileMap := MapSet(fileMap, file.fileName, Info(batch.id, connectorType, connectorName, file.reason));
      data := data + [row];
    }
    assert BatchRows(batch)[..|batch.files|] == BatchRows(batch);
  }

  /** One member more: its row is appended and its entry set on the map. */
  lemma EmitBatchStep(data0: seq<FlatTableRow>, batch: Batch, k: nat, data: seq<FlatTableRow>)
    requires k < |batch.files| && data == data0 + BatchRows(batch)[..k]
    ensures var f := batch.files[k];
      var row := IngestionRow(f, batch.id);
      var t := ResolveConnectorType(f);
      && data + [row] == data0 + BatchRows(batch)[..k + 1]
      && IngestionMap(data + [row]) == MapSet(IngestionMap(data), f.fileName, Info(batch.id, t, ResolveConnectorName(f, t), f.reason))
  {
    var row := IngestionRow(batch.files[k], batch.id);
    assert (data + [row])[..|data|] == data;
    assert BatchRows(batch)[..k + 1] == BatchRows(batch)[..k] + [row];
  }

  /** The Ingestion loop over all batches. */
  method EmitIngestion(batches: seq<Batch>) returns (data: seq<FlatTableRow>, fileMap: NameMap)
    ensures data == IngestionRows(batches)
    ensures fileMap == IngestionMap(data)
  {
    data := [];
    fileMap := EmptyNameMap;
    for bi := 0 to |batches|
      invariant data == IngestionRows(batches[..bi])
      invariant fileMap == IngestionMap(data)
    {
      assert batches[..bi + 1][..bi] == batches[..bi];
      data, fileMap := EmitBatch(data, fileMap, batches[bi]);
    }
    assert batches[..|batches|] == batches;
  }

  lemma SplitAppend(a: seq<FlatTableRow>, b: seq<FlatTableRow>)
    ensures (a + b)[..|a|] == a && (a + b)[|a|..] == b
  {
  }

  /** The body of the Indexing loop for one file: the row, and the counter after it
      (advanced only when the name was not ingested). */
  method IndexingStep(file: FileDetail, info: map<string, Info>, counter0: nat, ids: IdSource)
    returns (row: FlatTableRow, counter: nat)
    ensures row == IndexingRow(file, info, ids(counter0))
    ensures counter == counter0 + (if file.fileName in info then 0 else 1)
  {
    counter := counter0;
    var sizeMB := SizeMB(file);
    var credits := sizeMB * 60.0;
    var connectorType := ResolveConnectorType(file);
    var connectorName := ResolveConnectorName(file, connectorType);
    var ingestionId: string;
    var reason: UpdateReason;
    if file.fileName in info {
      ingestionId := info[file.fileName].processingId;
      reason := info[file.fileName].reason;
    } else {
      ingestionId := ids(counter);
      counter := counter + 1;
      reason := file.reason;
    }
    row := FlatTableRow(file.fileName, file.fileType, Indexing, file.updateTime, sizeMB,
                        reason, connectorType, connectorName, ingestionId, Some(credits));
  }

  /** What one turn of the Indexing loop adds to the rows, the counter and the
      names seen. */
  lemma IndexingLoopStep(data0: seq<FlatTableRow>, files: seq<FileDetail>, info: map<string, Info>,
                         counter0: nat, ids: IdSource, i: nat, data: seq<FlatTableRow>, counter: nat, row: FlatTableRow)
    requires i < |files|
    requires data == data0 + IndexingRows(files[..i], info, counter0, ids)
    requires counter == counter0 + Unmatched(files[..i], info)
    requires row == IndexingRow(files[i], info, ids(counter))
    ensures data + [row] == data0 + IndexingRows(files[..i + 1], info, counter0, ids)
    ensures counter + (if files[i].fileName in info then 0 else 1) == counter0 + Unmatched(files[..i + 1], info)
    ensures NamesOf(files[..i + 1]) == NamesOf(files[..i]) + {files[i].fileName}
  {
    IndexingDataStep(data0, files, info, counter0, ids, i, data, counter, row);
    UnmatchedSnoc(files, i, info);
    NamesOfSnoc(files, i);
  }

  lemma IndexingDataStep(data0: seq<FlatTableRow>, files: seq<FileDetail>, info: map<string, Info>,
                         counter0: nat, ids: IdSource, i: nat, data: seq<FlatTableRow>, counter: nat, row: FlatTableRow)
    requires i < |files|
    requires data == data0 + IndexingRows(files[..i], info, counter0, ids)
    requires counter == counter0 + Unmatched(files[..i], info)
    requires row == IndexingRow(files[i], info, ids(counter))
    ensures data + [row] == data0 + IndexingRows(files[..i + 1], info, counter0, ids)
  {
    assert ids(counter) == FreshId(ids, counter0, files, info, i);
    IndexingRowsSnoc(files, i, info, counter0, ids);
    assert data + [row] == data0 + (IndexingRows(files[..i], info, counter0, ids) + [row]);
  }

  lemma NamesOfSnoc(files: seq<FileDetail>, i: nat)
    requires i < |files|
    ensures NamesOf(files[..i + 1]) == NamesOf(files[..i]) + {files[i].fileName}
  {
    assert files[..i + 1] == files[..i] + [files[i]];
  }

  /** The Indexing loop: one row per indexing file; a name that was not ingested
      draws the next id from the counter. */
  method EmitIndexing(data0: seq<FlatTableRow>, files: seq<FileDetail>, info: map<string, Info>,
                      counter0: nat, ids: IdSource)
    returns (data: seq<FlatTableRow>, counter: nat, indexedFiles: set<string>)
    ensures data == data0 + IndexingRows(files, info, counter0, ids)
    ensures |data0| <= |data| && data[..|data0|] == data0 && data[|data0|..] == IndexingRows(files, info, counter0, ids)
    ensures AllIndexing(data[|data0|..])
    ensures counter == counter0 + Unmatched(files, info)
    ensures indexedFiles == NamesOf(files)
  {
    data, counter, indexedFiles := data0, counter0, {};
    for i := 0 to |files|
      invariant data == data0 + IndexingRows(files[..i], info, counter0, ids)
      invariant counter == counter0 + Unmatched(files[..i], info)
      invariant indexedFiles == NamesOf(files[..i])
    {
      var file := files[i];
      var row, c := IndexingStep(file, info, counter, ids);
      IndexingLoopStep(data0, files, info, counter0, ids, i, data, counter, row);
      data, counter := data + [row], c;
      indexedFiles := indexedFiles + {file.fileName};
    }
    assert files[..|files|] == files;
    SplitAppend(data0, IndexingRows(files, info, counter0, ids));
    IndexingRowsNames(files, info, counter0, ids);
  }

  lemma SynthRowsSnoc(shift: Shifter, keys: seq<string>, i: nat, info: map<string, Info>, indexed: set<string>,
                      ingestion: seq<FlatTableRow>)
    requires i < |keys|
    ensures SynthRows(shift, keys[..i + 1], info, indexed, ingestion)
      == SynthRows(shift, keys[..i], info, indexed, ingestion) + SynthFor(shift, keys[i], info, indexed, ingestion)
  {
    assert keys[..i + 1][..i] == keys[..i];
  }

  /** One key of the synthesis loop. */
  method EmitSynthFor(shift: Shifter, data0: seq<FlatTableRow>, ingestion: seq<FlatTableRow>, fileName: string,
                      info: map<string, Info>, indexedFiles: set<string>)
    returns (data: seq<FlatTableRow>)
    requires |ingestion| <= |data0| && data0[..|ingestion|] == ingestion && AllIndexing(data0[|ingestion|..])
    ensures data == data0 + SynthFor(shift, fileName, info, indexedFiles, ingestion)
  {
    data := data0;
    if fileName !in indexedFiles && fileName in info {
      assert data0 == ingestion + data0[|ingestion|..];
      FindIgnoresIndexingRows(ingestion, data0[|ingestion|..], fileName);
      var ingestionRow := FindIngestionRow(data0, fileName);
      if ingestionRow.Some? {
        var ingestionInfo := info[fileName];
        data := data0 + [SynthRow(shift, ingestionRow.value, ingestionInfo.processingId)];
      }
    }
  }

  /** What one turn of the synthesis loop adds, and that the rows after the
      Ingestion rows stay Indexing rows. */
  lemma SynthLoopStep(shift: Shifter, data0: seq<FlatTableRow>, data: seq<FlatTableRow>, ingestion: seq<FlatTableRow>,
                      keys: seq<string>, i: nat, info: map<string, Info>, indexedFiles: set<string>)
    requires i < |keys|
    requires data == data0 + SynthRows(shift, keys[..i], info, indexedFiles, ingestion)
    requires |ingestion| <= |data| && data[..|ingestion|] == ingestion && AllIndexing(data[|ingestion|..])
    ensures var next := data + SynthFor(shift, keys[i], info, indexedFiles, ingestion);
      && next == data0 + SynthRows(shift, keys[..i + 1], info, indexedFiles, ingestion)
      && |ingestion| <= |next| && next[..|ingestion|] == ingestion && AllIndexing(next[|ingestion|..])
  {
    var more := SynthFor(shift, keys[i], info, indexedFiles, ingestion);
    SynthRowsSnoc(shift, keys, i, info, indexedFiles, ingestion);
    assert AllIndexing(more);
    IndexingAfterIngestion(data, more, ingestion);
  }

  /** Appending Indexing rows keeps the Ingestion prefix and the Indexing tail. */
  lemma IndexingAfterIngestion(data: seq<FlatTableRow>, more: seq<FlatTableRow>, ingestion: seq<FlatTableRow>)
    requires |ingestion| <= |data| && data[..|ingestion|] == ingestion && AllIndexing(data[|ingestion|..])
    requires AllIndexing(more)
    ensures var next := data + more;
      |ingestion| <= |next| && next[..|ingestion|] == ingestion && AllIndexing(next[|ingestion|..])
  {
    var next := data + more;
    assert next[|ingestion|..] == data[|ingestion|..] + more;
    assert next[..|ingestion|] == data[..|ingestion|];
  }

  /** The synthesis loop over the map's keys: rows appended so far after the
      Ingestion rows are Indexing rows, so the search sees only Ingestion rows. */
  method EmitSynth(shift: Shifter, data0: seq<FlatTableRow>, ingestion: seq<FlatTableRow>, keys: seq<string>,
                   info: map<string, Info>, indexedFiles: set<string>)
    returns (data: seq<FlatTableRow>)
    requires |ingestion| <= |data0| && data0[..|ingestion|] == ingestion && AllIndexing(data0[|ingestion|..])
    ensures data == data0 + SynthRows(shift, keys, info, indexedFiles, ingestion)
  {
    data := data0;
    for i := 0 to |keys|
      invariant data == data0 + SynthRows(shift, keys[..i], info, indexedFiles, ingestion)
      invariant |ingestion| <= |data| && data[..|ingestion|] == ingestion && AllIndexing(data[|ingestion|..])
    {
      SynthLoopStep(shift, data0, data, ingestion, keys, i, info, indexedFiles);
      data := EmitSynthFor(shift, data, ingestion, keys[i], info, indexedFiles);
    }
    assert keys[..|keys|] == keys;
  }

  /** The ledger from its parts, each named. */
  lemma LedgerFromParts(parse: Parser, shift: Shifter, ids: IdSource, filesByMeter: MeterFiles, bs: seq<Batch>,
                        ingestion: seq<FlatTableRow>, m: NameMap, indexing: seq<FlatTableRow>,
                        synthesized: seq<FlatTableRow>)
    requires bs == Group(parse, ids, SortByTime(parse, FilesOf(filesByMeter, BatchDataPipeline)))
    requires ingestion == IngestionRows(bs) && m == IngestionMap(ingestion)
    requires indexing == IndexingRows(FilesOf(filesByMeter, UnstructuredDataProcessed), m.values, |bs|, ids)
    requires synthesized == SynthRows(shift, m.keys, m.values, NamesOf(FilesOf(filesByMeter, UnstructuredDataProcessed)), ingestion)
    ensures Ledger(parse, shift, ids, filesByMeter) == ingestion + indexing + synthesized
  {
  }

  /** `flatTableData`: sort and batch the pipeline files, then the Ingestion,
      Indexing and synthesis loops. */
  method FlatTableData(filesByMeter: MeterFiles, ids: IdSource) returns (data: seq<FlatTableRow>)
    ensures data == Ledger(ParseTimeForGrouping, SynthTime, ids, filesByMeter)
  {
    var parse: Parser := ParseTimeForGrouping;
    var unstructuredFiles := FilesOf(filesByMeter, UnstructuredDataProcessed);
    var pipelineFiles := FilesOf(filesByMeter, BatchDataPipeline);
    var sortedPipelineFiles := SortByTime(parse, pipelineFiles);
    var batches, counter := AssignBatches(parse, ids, sortedPipelineFiles);
    var fileMap;
    data, fileMap := EmitIngestion(batches);
    var ingestion := data;
    var indexedFiles;
    data, counter, indexedFiles := EmitIndexing(data, unstructuredFiles, fileMap.values, counter, ids);
    ghost var indexing := IndexingRows(unstructuredFiles, fileMap.values, |batches|, ids);
    data := EmitSynth(SynthTime, data, ingestion, fileMap.keys, fileMap.values, indexedFiles);
    LedgerFromParts(parse, SynthTime, ids, filesByMeter, batches, ingestion, fileMap, indexing,
                    SynthRows(SynthTime, fileMap.keys, fileMap.values, indexedFiles, ingestion));
  }
}
