/** Properties of the flat ledger: its layout and counts, where each row's processing
    id, reason and credits come from, the synthesised rows, the credit balance
    against the chart's indexing bars, and the shape of every id. */
module LedgerProperties {
  import opened Types
  import opened Text
  import opened DataGenerator
  import opened FileDetails

  // ---------------------------------------------------------------------------
  // Batches and Ingestion rows

  /** Each member of each batch appears in the list of all members. */
  lemma {:induction false} AllFilesMember(bs: seq<Batch>, j: nat, k: nat)
    requires j < |bs| && k < |bs[j].files|
    ensures bs[j].files[k] in AllFiles(bs)
  {
    var n := |bs|;
    assert AllFiles(bs) == AllFiles(bs[..n - 1]) + bs[n - 1].files;
    if j < n - 1 {
      assert bs[..n - 1][j] == bs[j];
      AllFilesMember(bs[..n - 1], j, k);
    } else {
      assert AllFiles(bs)[|AllFiles(bs[..n - 1])| + k] == bs[j].files[k];
    }
  }

  /** Each element of the list of all members is a member of some batch. */
  lemma {:induction false} AllFilesFrom(bs: seq<Batch>, f: FileDetail)
    requires f in AllFiles(bs)
    ensures exists j, k :: 0 <= j < |bs| && 0 <= k < |bs[j].files| && bs[j].files[k] == f
  {
    var n := |bs|;
    var init := bs[..n - 1];
    assert AllFiles(bs) == AllFiles(init) + bs[n - 1].files;
    if f in AllFiles(init) {
      AllFilesFrom(init, f);
      var j, k :| 0 <= j < |init| && 0 <= k < |init[j].files| && init[j].files[k] == f;
      assert bs[j] == init[j];
    } else {
      var k :| 0 <= k < |bs[n - 1].files| && bs[n - 1].files[k] == f;
    }
  }

  /** Every member of every batch has its Ingestion row. */
  lemma {:induction false} IngestionRowsCover(bs: seq<Batch>, j: nat, k: nat)
    requires j < |bs| && k < |bs[j].files|
    ensures exists i :: 0 <= i < |IngestionRows(bs)| && IngestionRows(bs)[i] == IngestionRow(bs[j].files[k], bs[j].id)
  {
    var n := |bs|;
    var init := bs[..n - 1];
    var rows := IngestionRows(bs);
    assert rows == IngestionRows(init) + BatchRows(bs[n - 1]);
    if j < n - 1 {
      assert init[j] == bs[j];
      IngestionRowsCover(init, j, k);
      var i :| 0 <= i < |IngestionRows(init)| && IngestionRows(init)[i] == IngestionRow(bs[j].files[k], bs[j].id);
      assert rows[i] == IngestionRows(init)[i];
    } else {
      assert rows[|IngestionRows(init)| + k] == BatchRows(bs[n - 1])[k];
    }
  }

  /** Ingestion rows are Ingestion events without credits. */
  lemma {:induction false} IngestionRowsKinds(bs: seq<Batch>)
    ensures forall i :: 0 <= i < |IngestionRows(bs)| ==>
      IngestionRows(bs)[i].actionType == Ingestion && IngestionRows(bs)[i].credits.None?
  {
    if bs != [] {
      var init := bs[..|bs| - 1];
      IngestionRowsKinds(init);
      assert IngestionRows(bs) == IngestionRows(init) + BatchRows(bs[|bs| - 1]);
    }
  }

  /** There is one Ingestion row per ingestion file: every file lands in exactly one
      batch, and each batch member yields one row. */
  lemma IngestionCount(parse: Parser, shift: Shifter, ids: IdSource, filesByMeter: MeterFiles)
    ensures |Parts(parse, shift, ids, filesByMeter).ingestion| == |FilesOf(filesByMeter, BatchDataPipeline)|
  {
    var pipeline := FilesOf(filesByMeter, BatchDataPipeline);
    var sorted := SortByTime(parse, pipeline);
    var bs := Group(parse, ids, sorted);
    GroupFiles(parse, ids, sorted);
    IngestionRowsFromBatches(bs);
    assert |multiset(AllFiles(bs))| == |multiset(pipeline)|;
  }

  /** Every Ingestion row is an Ingestion event without credits, made from a member
      of some batch under that batch's id, which is the id drawn for that batch's
      position; its connector is the explicit one or else the hash fallback. */
  lemma IngestionRowsShape(parse: Parser, shift: Shifter, ids: IdSource, filesByMeter: MeterFiles, i: nat)
    requires i < |Parts(parse, shift, ids, filesByMeter).ingestion|
    ensures var p := Parts(parse, shift, ids, filesByMeter);
      var r := p.ingestion[i];
      && r.actionType == Ingestion
      && r.credits.None?
      && exists j, k :: (0 <= j < |p.batches| && 0 <= k < |p.batches[j].files|
           && r.ingestionId == ids(j)
           && r.fileName == p.batches[j].files[k].fileName
           && r.reason == p.batches[j].files[k].reason
           && r.connectorType == ResolveConnectorType(p.batches[j].files[k])
           && (p.batches[j].files[k].connectorType.Some? ==>
                 r.connectorType == p.batches[j].files[k].connectorType.value))
  {
    var p := Parts(parse, shift, ids, filesByMeter);
    var bs := p.batches;
    assert bs == Group(parse, ids, SortByTime(parse, FilesOf(filesByMeter, BatchDataPipeline)));
    assert p.ingestion == IngestionRows(bs);
    IngestionRowsFromBatches(bs);
    GroupWellBatched(parse, ids, SortByTime(parse, FilesOf(filesByMeter, BatchDataPipeline)));
    assert RowOfSomeMember(bs, p.ingestion[i]);
    var j, k :| 0 <= j < |bs| && 0 <= k < |bs[j].files| && p.ingestion[i] == IngestionRow(bs[j].files[k], bs[j].id);
    assert bs[j].id == ids(j);
  }

  lemma NamesOfAppend(a: seq<FileDetail>, b: seq<FileDetail>)
    ensures NamesOf(a + b) == NamesOf(a) + NamesOf(b)
  {
    var c := a + b;
    forall n | n in NamesOf(c) ensures n in NamesOf(a) + NamesOf(b) {
      var i :| 0 <= i < |c| && c[i].fileName == n;
      if i < |a| { assert c[i] == a[i]; } else { assert c[i] == b[i - |a|]; }
    }
    forall n | n in NamesOf(a) + NamesOf(b) ensures n in NamesOf(c) {
      if n in NamesOf(a) {
        var i :| 0 <= i < |a| && a[i].fileName == n;
        assert c[i] == a[i];
      } else {
        var i :| 0 <= i < |b| && b[i].fileName == n;
        assert c[|a| + i] == b[i];
      }
    }
  }

  lemma HasRowNamedAppend(a: seq<FlatTableRow>, b: seq<FlatTableRow>, n: string)
    ensures HasRowNamed(a + b, n) <==> HasRowNamed(a, n) || HasRowNamed(b, n)
  {
    var c := a + b;
    if HasRowNamed(c, n) {
      var i :| 0 <= i < |c| && c[i].fileName == n;
      if i < |a| { assert c[i] == a[i]; } else { assert c[i] == b[i - |a|]; }
    }
    if HasRowNamed(a, n) {
      var i :| 0 <= i < |a| && a[i].fileName == n;
      assert c[i] == a[i];
    }
    if HasRowNamed(b, n) {
      var i :| 0 <= i < |b| && b[i].fileName == n;
      assert c[|a| + i] == b[i];
    }
  }

  /** Files with the same elements have the same names. */
  lemma NamesOfPermutation(a: seq<FileDetail>, b: seq<FileDetail>)
    requires multiset(a) == multiset(b)
    ensures NamesOf(a) == NamesOf(b)
  {
    forall n | n in NamesOf(a) ensures n in NamesOf(b) {
      var i :| 0 <= i < |a| && a[i].fileName == n;
      assert a[i] in multiset(b);
      var j :| 0 <= j < |b| && b[j] == a[i];
    }
    forall n | n in NamesOf(b) ensures n in NamesOf(a) {
      var j :| 0 <= j < |b| && b[j].fileName == n;
      assert b[j] in multiset(a);
      var i :| 0 <= i < |a| && a[i] == b[j];
    }
  }

  /** The names of the Ingestion rows are the names of the batch members. */
  lemma {:induction false} RowNamesAreMemberNames(bs: seq<Batch>, n: string)
    ensures HasRowNamed(IngestionRows(bs), n) <==> n in NamesOf(AllFiles(bs))
  {
    if bs != [] {
      var init, last := bs[..|bs| - 1], bs[|bs| - 1];
      RowNamesAreMemberNames(init, n);
      HasRowNamedAppend(IngestionRows(init), BatchRows(last), n);
      NamesOfAppend(AllFiles(init), last.files);
      var r := BatchRows(last);
      if HasRowNamed(r, n) {
        var k :| 0 <= k < |r| && r[k].fileName == n;
        assert last.files[k].fileName == n;
      }
      if n in NamesOf(last.files) {
        var k :| 0 <= k < |last.files| && last.files[k].fileName == n;
        assert r[k].fileName == n;
      }
    }
  }

  /** The ingested names are exactly the names of the ingestion files. */
  lemma IngestedNames(parse: Parser, shift: Shifter, ids: IdSource, filesByMeter: MeterFiles)
    ensures forall n :: HasRowNamed(Parts(parse, shift, ids, filesByMeter).ingestion, n)
                   <==> n in NamesOf(FilesOf(filesByMeter, BatchDataPipeline))
  {
    var pipeline := FilesOf(filesByMeter, BatchDataPipeline);
    var sorted := SortByTime(parse, pipeline);
    var bs := Group(parse, ids, sorted);
    assert Parts(parse, shift, ids, filesByMeter).ingestion == IngestionRows(bs);
    GroupFiles(parse, ids, sorted);
    NamesOfPermutation(AllFiles(bs), pipeline);
    forall n ensures HasRowNamed(IngestionRows(bs), n) <==> n in NamesOf(pipeline) {
      RowNamesAreMemberNames(bs, n);
    }
  }

  // ---------------------------------------------------------------------------
  // The file-name map and the Indexing rows

  /** A name that has a row has a last row. */
  lemma {:induction false} LastExists(rows: seq<FlatTableRow>, name: string)
    requires HasRowNamed(rows, name)
    ensures exists i: nat :: LastWithName(rows, i) && rows[i].fileName == name
  {
    var n := |rows|;
    if rows[n - 1].fileName == name {
      assert LastWithName(rows, n - 1);
    } else {
      var init := rows[..n - 1];
      var x :| 0 <= x < n && rows[x].fileName == name;
      assert init[x] == rows[x];
      LastExists(init, name);
      var i: nat :| LastWithName(init, i) && init[i].fileName == name;
      assert rows[i] == init[i];
      assert LastWithName(rows, i);
    }
  }

  /** The map entry of an ingested name is the id and reason of its last row. */
  lemma MapEntryOfName(rows: seq<FlatTableRow>, name: string)
    requires HasRowNamed(rows, name)
    ensures name in IngestionMap(rows).values
    ensures exists i: nat :: (LastWithName(rows, i) && rows[i].fileName == name
                         && IngestionMap(rows).values[name] == InfoOf(rows[i]))
  {
    LastExists(rows, name);
    var i: nat :| LastWithName(rows, i) && rows[i].fileName == name;
    IngestionMapLast(rows, i);
  }

  lemma IndexingRowAt(files: seq<FileDetail>, info: map<string, Info>, counter0: nat, ids: IdSource, i: nat)
    requires i < |files|
    ensures IndexingRows(files, info, counter0, ids)[i]
      == IndexingRow(files[i], info, FreshId(ids, counter0, files, info, i))
  {
  }

  /** `r` is the Indexing row of file `f` after the Ingestion rows `ingestion`: an
      Indexing event of the file's name with 60 credits per MB; when the name was
      ingested, the id and the reason of its last Ingestion row; otherwise
      `freshId` and the file's own reason. */
  ghost predicate IndexingRowFits(r: FlatTableRow, f: FileDetail, ingestion: seq<FlatTableRow>, freshId: string) {
    && r.actionType == Indexing
    && r.fileName == f.fileName
    && r.credits == Some(IndexingCredits(f))
    && (HasRowNamed(ingestion, f.fileName) ==>
          exists j: nat :: (LastWithName(ingestion, j) && ingestion[j].fileName == f.fileName
                       && r.ingestionId == ingestion[j].ingestionId && r.reason == ingestion[j].reason))
    && (!HasRowNamed(ingestion, f.fileName) ==> r.ingestionId == freshId && r.reason == f.reason)
  }

  /** The Indexing row at `i`, over the map of any Ingestion rows and any starting
      counter. */
  lemma IndexingRowShape(ingestion: seq<FlatTableRow>, files: seq<FileDetail>, counter0: nat, ids: IdSource, i: nat)
    requires i < |files|
    ensures var info := IngestionMap(ingestion).values;
      IndexingRowFits(IndexingRows(files, info, counter0, ids)[i], files[i], ingestion,
                      FreshId(ids, counter0, files, info, i))
  {
    var info := IngestionMap(ingestion).values;
    IndexingRowAt(files, info, counter0, ids, i);
    if HasRowNamed(ingestion, files[i].fileName) {
      MapEntryOfName(ingestion, files[i].fileName);
    } else {
      IngestionMapMembers(ingestion);
    }
  }

  /** One Indexing row per indexing file, in input order. The row of a name that was
      ingested carries the id and the reason of the LAST Ingestion row of that name;
      the row of any other name draws the next id from the counter, which continues
      after the batch ids, and keeps its own reason. Credits are 60 per MB. */
  lemma IndexingRowsShape(parse: Parser, shift: Shifter, ids: IdSource, filesByMeter: MeterFiles, i: nat)
    requires i < |FilesOf(filesByMeter, UnstructuredDataProcessed)|
    ensures var p := Parts(parse, shift, ids, filesByMeter);
      var files := FilesOf(filesByMeter, UnstructuredDataProcessed);
      && |p.indexing| == |files|
      && IndexingRowFits(p.indexing[i], files[i], p.ingestion, FreshId(ids, |p.batches|, files, p.fileMap.values, i))
  {
    var p := Parts(parse, shift, ids, filesByMeter);
    IndexingRowShape(p.ingestion, FilesOf(filesByMeter, UnstructuredDataProcessed), |p.batches|, ids, i);
  }

  // ---------------------------------------------------------------------------
  // Synthesised rows

  /** The keys, in order, whose name was not indexed. */
  function Unindexed(keys: seq<string>, indexed: set<string>): (u: seq<string>)
    ensures forall n :: n in u <==> n in keys && n !in indexed
  {
    if keys == [] then []
    else
      var init := keys[..|keys| - 1];
      var last := keys[|keys| - 1];
      assert keys == init + [last];
      Unindexed(init, indexed) + (if last in indexed then [] else [last])
  }

  lemma {:induction false} UnindexedDistinct(keys: seq<string>, indexed: set<string>)
    requires Distinct(keys)
    ensures Distinct(Unindexed(keys, indexed))
  {
    if keys != [] {
      var init := keys[..|keys| - 1];
      var last := keys[|keys| - 1];
      assert last !in init;
      UnindexedDistinct(init, indexed);
    }
  }

  /** The rows of `SynthRows` correspond one to one, in order, with the keys that
      were not indexed; each is built from the first Ingestion row of its name and
      carries that name's mapped id. */
  lemma {:induction false} SynthRowsOf(shift: Shifter, keys: seq<string>, info: map<string, Info>, indexed: set<string>,
                                       ingestion: seq<FlatTableRow>)
    requires forall n :: n in keys ==> n in info && FindIngestionRow(ingestion, n).Some?
    ensures var u := Unindexed(keys, indexed);
      var rows := SynthRows(shift, keys, info, indexed, ingestion);
      && |rows| == |u|
      && forall i :: 0 <= i < |u| ==> rows[i] == SynthRow(shift, FindIngestionRow(ingestion, u[i]).value, info[u[i]].processingId)
  {
    if keys != [] {
      var init, last := keys[..|keys| - 1], keys[|keys| - 1];
      assert keys == init + [last];
      assert forall n :: n in init ==> n in keys;
      SynthRowsOf(shift, init, info, indexed, ingestion);
      if last !in indexed {
        assert last in keys;
        SynthRowsAppend(shift, SynthRows(shift, init, info, indexed, ingestion), Unindexed(init, indexed),
                      last, info, ingestion);
      }
    }
  }

  lemma SynthRowsAppend(shift: Shifter, rows: seq<FlatTableRow>, u: seq<string>, n: string,
                      info: map<string, Info>, ingestion: seq<FlatTableRow>)
    requires forall k :: k in u ==> k in info && FindIngestionRow(ingestion, k).Some?
    requires n in info && FindIngestionRow(ingestion, n).Some?
    requires |rows| == |u|
    requires forall i :: 0 <= i < |u| ==> rows[i] == SynthRow(shift, FindIngestionRow(ingestion, u[i]).value, info[u[i]].processingId)
    ensures var rows', u' := rows + [SynthRow(shift, FindIngestionRow(ingestion, n).value, info[n].processingId)], u + [n];
      && |rows'| == |u'|
      && forall i :: 0 <= i < |u'| ==> rows'[i] == SynthRow(shift, FindIngestionRow(ingestion, u'[i]).value, info[u'[i]].processingId)
  {
    var rows', u' := rows + [SynthRow(shift, FindIngestionRow(ingestion, n).value, info[n].processingId)], u + [n];
    forall i | 0 <= i < |u'|
      ensures rows'[i] == SynthRow(shift, FindIngestionRow(ingestion, u'[i]).value, info[u'[i]].processingId)
    {
      if i < |u| {
        assert rows'[i] == rows[i] && u'[i] == u[i];
      }
    }
  }

  /** Every key of the map of a list of Ingestion rows is mapped and has a first
      Ingestion row. */
  lemma MapKeysFound(rows: seq<FlatTableRow>)
    requires forall i :: 0 <= i < |rows| ==> rows[i].actionType == Ingestion
    ensures forall n :: n in IngestionMap(rows).keys ==> n in IngestionMap(rows).values && FindIngestionRow(rows, n).Some?
  {
    IngestionMapValid(rows);
    IngestionMapMembers(rows);
    forall n | n in IngestionMap(rows).keys ensures FindIngestionRow(rows, n).Some? {
      var x :| 0 <= x < |rows| && rows[x].fileName == n;
    }
  }

  /** The names that get a synthesised row: each ingested name that no indexing
      file has, once, in the map's key order (first ingestion of each name). */
  lemma SynthesizedNames(parse: Parser, shift: Shifter, ids: IdSource, filesByMeter: MeterFiles)
    ensures var p := Parts(parse, shift, ids, filesByMeter);
      var u := Unindexed(p.fileMap.keys, NamesOf(FilesOf(filesByMeter, UnstructuredDataProcessed)));
      && Distinct(u)
      && (forall n :: n in u <==> (n in NamesOf(FilesOf(filesByMeter, BatchDataPipeline))
                                   && n !in NamesOf(FilesOf(filesByMeter, UnstructuredDataProcessed))))
  {
    var p := Parts(parse, shift, ids, filesByMeter);
    var indexed := NamesOf(FilesOf(filesByMeter, UnstructuredDataProcessed));
    assert p.fileMap == IngestionMap(p.ingestion);
    IngestionMapValid(p.ingestion);
    IngestionMapMembers(p.ingestion);
    IngestedNames(parse, shift, ids, filesByMeter);
    UnindexedDistinct(p.fileMap.keys, indexed);
  }

  /** Over the map of any list of Ingestion rows: one synthesised row per key that
      was not indexed, built from that key's first Ingestion row. */
  lemma SynthShapeOver(shift: Shifter, rows: seq<FlatTableRow>, indexed: set<string>)
    requires forall i :: 0 <= i < |rows| ==> rows[i].actionType == Ingestion
    ensures var m := IngestionMap(rows);
      var u := Unindexed(m.keys, indexed);
      var synth := SynthRows(shift, m.keys, m.values, indexed, rows);
      && |synth| == |u|
      && forall i :: 0 <= i < |u| ==>
           && u[i] in m.values
           && FindIngestionRow(rows, u[i]).Some?
           && synth[i] == SynthRow(shift, FindIngestionRow(rows, u[i]).value, m.values[u[i]].processingId)
  {
    MapKeysFound(rows);
    SynthRowsOf(shift, IngestionMap(rows).keys, IngestionMap(rows).values, indexed, rows);
  }

  /** One synthesised row per such name, in that order. Each copies the first
      Ingestion row of its name, at the shifted time, with 60 credits per MB and
      the name's mapped id. */
  lemma SynthesizedShape(parse: Parser, shift: Shifter, ids: IdSource, filesByMeter: MeterFiles)
    ensures var p := Parts(parse, shift, ids, filesByMeter);
      var u := Unindexed(p.fileMap.keys, NamesOf(FilesOf(filesByMeter, UnstructuredDataProcessed)));
      && |p.synthesized| == |u|
      && forall i :: 0 <= i < |u| ==>
           && u[i] in p.fileMap.values
           && FindIngestionRow(p.ingestion, u[i]).Some?
           && var first := FindIngestionRow(p.ingestion, u[i]).value;
              && p.synthesized[i].fileName == u[i]
              && p.synthesized[i].actionType == Indexing
              && p.synthesized[i].time == shift(first.time)
              && p.synthesized[i].size == first.size
              && p.synthesized[i].credits == Some(CreditsOfMB(first.size))
              && p.synthesized[i].reason == first.reason
              && p.synthesized[i].ingestionId == p.fileMap.values[u[i]].processingId
  {
    var p := Parts(parse, shift, ids, filesByMeter);
    IngestionRowsKinds(p.batches);
    SynthShapeOfParts(shift, p, NamesOf(FilesOf(filesByMeter, UnstructuredDataProcessed)));
  }

  /** `SynthesizedShape` over any parts whose map and synthesised rows are derived
      from their Ingestion rows. */
  lemma SynthShapeOfParts(shift: Shifter, p: LedgerParts, indexed: set<string>)
    requires forall i :: 0 <= i < |p.ingestion| ==> p.ingestion[i].actionType == Ingestion
    requires p.fileMap == IngestionMap(p.ingestion)
    requires p.synthesized == SynthRows(shift, p.fileMap.keys, p.fileMap.values, indexed, p.ingestion)
    ensures var u := Unindexed(p.fileMap.keys, indexed);
      && |p.synthesized| == |u|
      && forall i :: 0 <= i < |u| ==>
           && u[i] in p.fileMap.values
           && FindIngestionRow(p.ingestion, u[i]).Some?
           && var first := FindIngestionRow(p.ingestion, u[i]).value;
              && p.synthesized[i].fileName == u[i]
              && p.synthesized[i].actionType == Indexing
              && p.synthesized[i].time == shift(first.time)
              && p.synthesized[i].size == first.size
              && p.synthesized[i].credits == Some(CreditsOfMB(first.size))
              && p.synthesized[i].reason == first.reason
              && p.synthesized[i].ingestionId == p.fileMap.values[u[i]].processingId
  {
    SynthShapeOver(shift, p.ingestion, indexed);
    var u := Unindexed(p.fileMap.keys, indexed);
    forall i | 0 <= i < |u|
      ensures var first := FindIngestionRow(p.ingestion, u[i]).value;
        && p.synthesized[i].fileName == u[i]
        && p.synthesized[i].actionType == Indexing
        && p.synthesized[i].time == shift(first.time)
        && p.synthesized[i].size == first.size
        && p.synthesized[i].credits == Some(CreditsOfMB(first.size))
        && p.synthesized[i].reason == first.reason
        && p.synthesized[i].ingestionId == p.fileMap.values[u[i]].processingId
    {
      var first := FindIngestionRow(p.ingestion, u[i]).value;
      var r := SynthRow(shift, first, p.fileMap.values[u[i]].processingId);
      assert p.synthesized[i] == r;
      assert r.credits == Some(CreditsOfMB(first.size));
    }
  }

  // ---------------------------------------------------------------------------
  // Layout, count and credits of the whole ledger

  lemma LayoutOf(a: seq<FlatTableRow>, b: seq<FlatTableRow>, c: seq<FlatTableRow>)
    requires forall i :: 0 <= i < |a| ==> a[i].actionType == Ingestion
    requires AllIndexing(b) && AllIndexing(c)
    ensures var l := a + b + c;
      && (forall i :: 0 <= i < |a| ==> l[i].actionType == Ingestion)
      && (forall i :: |a| <= i < |l| ==> l[i].actionType == Indexing)
      && l[|a|..|a| + |b|] == b
  {
    var l := a + b + c;
    forall i | |a| <= i < |l| ensures l[i].actionType == Indexing {
      if i < |a| + |b| {
        assert l[i] == b[i - |a|];
      } else {
        assert l[i] == c[i - |a| - |b|];
      }
    }
    assert l[|a|..|a| + |b|] == b;
  }

  /** All Ingestion rows first, then the Indexing rows, then the synthesised rows;
      the length is the number of ingestion files, plus the number of indexing
      files, plus the number of ingested names that no indexing file has. */
  lemma LedgerLayout(parse: Parser, shift: Shifter, ids: IdSource, filesByMeter: MeterFiles)
    ensures var p := Parts(parse, shift, ids, filesByMeter);
      var ledger := Ledger(parse, shift, ids, filesByMeter);
      var unstructured := FilesOf(filesByMeter, UnstructuredDataProcessed);
      var nI := |FilesOf(filesByMeter, BatchDataPipeline)|;
      var nX := |unstructured|;
      && |ledger| == nI + nX + |Unindexed(p.fileMap.keys, NamesOf(unstructured))|
      && (forall i :: 0 <= i < nI ==> ledger[i].actionType == Ingestion)
      && (forall i :: nI <= i < |ledger| ==> ledger[i].actionType == Indexing)
      && ledger[nI..nI + nX] == p.indexing
  {
    var p := Parts(parse, shift, ids, filesByMeter);
    assert Ledger(parse, shift, ids, filesByMeter) == p.ingestion + p.indexing + p.synthesized;
    var unstructured := FilesOf(filesByMeter, UnstructuredDataProcessed);
    assert p.fileMap == IngestionMap(p.ingestion);
    assert p.ingestion == IngestionRows(p.batches);
    assert p.indexing == IndexingRows(unstructured, p.fileMap.values, |p.batches|, ids);
    assert p.synthesized == SynthRows(shift, p.fileMap.keys, p.fileMap.values, NamesOf(unstructured), p.ingestion);
    IngestionCount(parse, shift, ids, filesByMeter);
    IngestionRowsKinds(p.batches);
    SynthShapeOver(shift, p.ingestion, NamesOf(unstructured));
    IndexingRowsNames(unstructured, p.fileMap.values, |p.batches|, ids);
    LayoutOf(p.ingestion, p.indexing, p.synthesized);
  }

  /** The total of the rows' credits, an Ingestion row counting 0. */
  function CreditSum(rows: seq<FlatTableRow>): real {
    if rows == [] then 0.0 else CreditSum(rows[..|rows| - 1]) + rows[|rows| - 1].credits.GetOr(0.0)
  }

  lemma {:induction false} CreditSumAppend(a: seq<FlatTableRow>, b: seq<FlatTableRow>)
    ensures CreditSum(a + b) == CreditSum(a) + CreditSum(b)
    decreases |b|
  {
    if b == [] {
      assert a + b == a;
    } else {
      assert (a + b)[..|a + b| - 1] == a + b[..|b| - 1];
      CreditSumAppend(a, b[..|b| - 1]);
    }
  }

  lemma CreditSumSnoc(rows: seq<FlatTableRow>, r: FlatTableRow)
    ensures CreditSum(rows + [r]) == CreditSum(rows) + r.credits.GetOr(0.0)
  {
    assert (rows + [r])[..|rows|] == rows;
  }

  lemma {:induction false} NoCreditsSum(rows: seq<FlatTableRow>)
    requires forall i :: 0 <= i < |rows| ==> rows[i].credits.None?
    ensures CreditSum(rows) == 0.0
  {
    if rows != [] {
      NoCreditsSum(rows[..|rows| - 1]);
    }
  }

  /** The Indexing rows carry exactly the chart's indexing total. */
  lemma {:induction false} IndexingRowsCredits(files: seq<FileDetail>, info: map<string, Info>, counter0: nat,
                                               ids: IdSource, i: nat)
    requires i <= |files|
    ensures CreditSum(IndexingRows(files[..i], info, counter0, ids)) == IndexingTotal(files[..i])
  {
    if i > 0 {
      IndexingRowsCredits(files, info, counter0, ids, i - 1);
      IndexingRowsCreditStep(files, info, counter0, ids, i);
      IndexingTotalStep(files, i);
    }
  }

  lemma IndexingRowsCreditStep(files: seq<FileDetail>, info: map<string, Info>, counter0: nat, ids: IdSource, i: nat)
    requires 0 < i <= |files|
    ensures CreditSum(IndexingRows(files[..i], info, counter0, ids))
      == CreditSum(IndexingRows(files[..i - 1], info, counter0, ids)) + IndexingCredits(files[i - 1])
  {
    var j := i - 1;
    IndexingRowsSnoc(files, j, info, counter0, ids);
    var last := IndexingRow(files[j], info, FreshId(ids, counter0, files, info, j));
    CreditSumSnoc(IndexingRows(files[..j], info, counter0, ids), last);
  }

  lemma IndexingTotalStep(files: seq<FileDetail>, i: nat)
    requires 0 < i <= |files|
    ensures IndexingTotal(files[..i]) == IndexingTotal(files[..i - 1]) + IndexingCredits(files[i - 1])
  {
    assert files[..i][..i - 1] == files[..i - 1];
  }

  /** The ledger's credits are the chart's indexing total plus the credits of the
      synthesised rows. */
  lemma LedgerCredits(parse: Parser, shift: Shifter, ids: IdSource, filesByMeter: MeterFiles)
    ensures var p := Parts(parse, shift, ids, filesByMeter);
      CreditSum(Ledger(parse, shift, ids, filesByMeter))
        == IndexingTotal(FilesOf(filesByMeter, UnstructuredDataProcessed)) + CreditSum(p.synthesized)
  {
    var p := Parts(parse, shift, ids, filesByMeter);
    var files := FilesOf(filesByMeter, UnstructuredDataProcessed);
    assert Ledger(parse, shift, ids, filesByMeter) == p.ingestion + p.indexing + p.synthesized;
    assert p.indexing == IndexingRows(files, p.fileMap.values, |p.batches|, ids);
    CreditSumAppend(p.ingestion + p.indexing, p.synthesized);
    CreditSumAppend(p.ingestion, p.indexing);
    assert p.ingestion == IngestionRows(p.batches);
    IngestionRowsKinds(p.batches);
    NoCreditsSum(p.ingestion);
    IndexingRowsCredits(files, p.fileMap.values, |p.batches|, ids, |files|);
    assert files[..|files|] == files;
  }

  lemma EmptyIffNoMembers(u: seq<string>)
    ensures u == [] <==> (forall n :: n !in u)
  {
    if u != [] {
      assert u[0] in u;
    }
  }

  /** When every ingested name is also indexed, nothing is synthesised and the
      ledger's credits equal the chart's indexing total. */
  lemma LedgerCreditsParity(parse: Parser, shift: Shifter, ids: IdSource, filesByMeter: MeterFiles)
    requires NamesOf(FilesOf(filesByMeter, BatchDataPipeline)) <= NamesOf(FilesOf(filesByMeter, UnstructuredDataProcessed))
    ensures Parts(parse, shift, ids, filesByMeter).synthesized == []
    ensures CreditSum(Ledger(parse, shift, ids, filesByMeter)) == IndexingTotal(FilesOf(filesByMeter, UnstructuredDataProcessed))
  {
    var p := Parts(parse, shift, ids, filesByMeter);
    var u := Unindexed(p.fileMap.keys, NamesOf(FilesOf(filesByMeter, UnstructuredDataProcessed)));
    SynthesizedNames(parse, shift, ids, filesByMeter);
    EmptyIffNoMembers(u);
    SynthesizedShape(parse, shift, ids, filesByMeter);
    LedgerCredits(parse, shift, ids, filesByMeter);
  }

  // ---------------------------------------------------------------------------
  // Processing ids

  /** `id` is the id drawn for some counter value. */
  ghost predicate Drawn(ids: IdSource, id: string) {
    exists n: nat :: id == ids(n)
  }

  /** Every row's id is the id drawn for some counter value. */
  ghost predicate IdsDrawn(ids: IdSource, rows: seq<FlatTableRow>) {
    forall i :: 0 <= i < |rows| ==> Drawn(ids, rows[i].ingestionId)
  }

  /** Every id kept in a map is the id drawn for some counter value. */
  ghost predicate InfoIdsDrawn(ids: IdSource, info: map<string, Info>) {
    forall x :: x in info ==> Drawn(ids, info[x].processingId)
  }

  lemma IdsDrawnAppend(ids: IdSource, a: seq<FlatTableRow>, b: seq<FlatTableRow>)
    requires IdsDrawn(ids, a) && IdsDrawn(ids, b)
    ensures IdsDrawn(ids, a + b)
  {
    forall i | 0 <= i < |a + b| ensures Drawn(ids, (a + b)[i].ingestionId) {
      if i < |a| {
        assert (a + b)[i] == a[i];
      } else {
        assert (a + b)[i] == b[i - |a|];
      }
    }
  }

  /** Ingestion rows carry the ids of their batches. */
  lemma {:induction false} BatchIdsDrawn(ids: IdSource, bs: seq<Batch>)
    requires forall j :: 0 <= j < |bs| ==> bs[j].id == ids(j)
    ensures IdsDrawn(ids, IngestionRows(bs))
  {
    if bs != [] {
      var n := |bs|;
      var init := bs[..n - 1];
      assert forall j :: 0 <= j < |init| ==> init[j] == bs[j];
      BatchIdsDrawn(ids, init);
      var last := BatchRows(bs[n - 1]);
      assert IngestionRows(bs) == IngestionRows(init) + last;
      forall i | 0 <= i < |last| ensures Drawn(ids, last[i].ingestionId) {
        assert last[i].ingestionId == ids(n - 1);
      }
      IdsDrawnAppend(ids, IngestionRows(init), last);
    }
  }

  /** The map's ids are ids of its rows. */
  lemma {:induction false} MapIdsDrawn(ids: IdSource, rows: seq<FlatTableRow>)
    requires IdsDrawn(ids, rows)
    ensures InfoIdsDrawn(ids, IngestionMap(rows).values)
  {
    if rows != [] {
      var init := rows[..|rows| - 1];
      var last := rows[|rows| - 1];
      forall i | 0 <= i < |init| ensures Drawn(ids, init[i].ingestionId) {
        assert init[i] == rows[i];
      }
      MapIdsDrawn(ids, init);
      IngestionMapStep(rows);
      var before := IngestionMap(init).values;
      var after := IngestionMap(rows).values;
      assert after == before[last.fileName := InfoOf(last)];
      forall x | x in after ensures Drawn(ids, after[x].processingId) {
        if x == last.fileName {
          assert Drawn(ids, rows[|rows| - 1].ingestionId);
        } else {
          assert after[x] == before[x];
        }
      }
    }
  }

  /** Indexing rows carry a mapped id or a freshly drawn one. */
  lemma IndexingIdsDrawn(files: seq<FileDetail>, info: map<string, Info>, counter0: nat, ids: IdSource)
    requires InfoIdsDrawn(ids, info)
    ensures IdsDrawn(ids, IndexingRows(files, info, counter0, ids))
  {
    var rows := IndexingRows(files, info, counter0, ids);
    forall i | 0 <= i < |rows| ensures Drawn(ids, rows[i].ingestionId) {
      var c := counter0 + Unmatched(files[..i], info);
      IndexingRowAt(files, info, counter0, ids, i);
      if files[i].fileName !in info {
        assert rows[i].ingestionId == ids(c);
      }
    }
  }

  /** Each synthesised row carries the id of some map entry. */
  lemma {:induction false} SynthIdsDrawn(shift: Shifter, keys: seq<string>, info: map<string, Info>,
                                         indexed: set<string>, ingestion: seq<FlatTableRow>, ids: IdSource)
    requires InfoIdsDrawn(ids, info)
    ensures IdsDrawn(ids, SynthRows(shift, keys, info, indexed, ingestion))
  {
    if keys != [] {
      var init, last := keys[..|keys| - 1], keys[|keys| - 1];
      SynthIdsDrawn(shift, init, info, indexed, ingestion, ids);
      var b := SynthFor(shift, last, info, indexed, ingestion);
      assert SynthRows(shift, keys, info, indexed, ingestion) == SynthRows(shift, init, info, indexed, ingestion) + b;
      if b != [] {
        assert last in info && b[0].ingestionId == info[last].processingId;
        assert |b| == 1;
      }
      IdsDrawnAppend(ids, SynthRows(shift, init, info, indexed, ingestion), b);
    }
  }

  /** Every ledger row's id is the id drawn for some counter value. */
  lemma LedgerIds(parse: Parser, shift: Shifter, ids: IdSource, filesByMeter: MeterFiles)
    ensures IdsDrawn(ids, Ledger(parse, shift, ids, filesByMeter))
  {
    var p := Parts(parse, shift, ids, filesByMeter);
    assert Ledger(parse, shift, ids, filesByMeter) == p.ingestion + p.indexing + p.synthesized;
    var files := FilesOf(filesByMeter, UnstructuredDataProcessed);
    var info := p.fileMap.values;
    assert p.ingestion == IngestionRows(p.batches);
    assert p.fileMap == IngestionMap(p.ingestion);
    assert p.indexing == IndexingRows(files, info, |p.batches|, ids);
    assert p.synthesized == SynthRows(shift, p.fileMap.keys, info, NamesOf(files), p.ingestion);
    GroupWellBatched(parse, ids, SortByTime(parse, FilesOf(filesByMeter, BatchDataPipeline)));
    BatchIdsDrawn(ids, p.batches);
    MapIdsDrawn(ids, p.ingestion);
    IndexingIdsDrawn(files, info, |p.batches|, ids);
    SynthIdsDrawn(shift, p.fileMap.keys, info, NamesOf(files), p.ingestion, ids);
    IdsDrawnAppend(ids, p.ingestion, p.indexing);
    IdsDrawnAppend(ids, p.ingestion + p.indexing, p.synthesized);
  }

  /** The shape `generateProcessingId` promises. */
  predicate ProcessingIdShape(id: string) {
    && |id| == 36
    && id[8] == '-' && id[13] == '-' && id[18] == '-' && id[23] == '-'
    && id[14] == '4'
    && id[19] in {'8', '9', 'a', 'b'}
    && forall k :: 0 <= k < 36 && HexPosition(k) ==> IsHexDigit(id[k])
  }

  /** With the generator's ids, every ledger row's id has the processing-id shape,
      whatever the random draws. */
  lemma LedgerIdShape(parse: Parser, shift: Shifter, draws: nat -> (nat -> Nibble), filesByMeter: MeterFiles, i: nat)
    requires i < |Ledger(parse, shift, IdsFrom(draws), filesByMeter)|
    ensures ProcessingIdShape(Ledger(parse, shift, IdsFrom(draws), filesByMeter)[i].ingestionId)
  {
    LedgerIds(parse, shift, IdsFrom(draws), filesByMeter);
    assert Drawn(IdsFrom(draws), Ledger(parse, shift, IdsFrom(draws), filesByMeter)[i].ingestionId);
    var n: nat :| Ledger(parse, shift, IdsFrom(draws), filesByMeter)[i].ingestionId == IdsFrom(draws)(n);
    var id := GenerateProcessingId(n, draws(n));
    assert IdsFrom(draws)(n) == id;
  }

  // ---------------------------------------------------------------------------
  // The synthesised time

  lemma SynthTimeOfMatch(time: string, mt: TimeMatch)
    requires MatchTime(time) == Some(mt)
    ensures SynthTime(time) == ShiftHour(time, Some(mt))
  {
  }

  lemma ShiftHourOf(time: string, w: string, d: string, h: string, m: string)
    requires WellFormedMatch(TimeMatch(w, d, h, m))
    ensures ShiftHour(time, Some(TimeMatch(w, d, h, m)))
      == w + " " + d + " " + PadStart2(NatToString((DigitsValue(h) + 1) % 24)) + ":" + m
  {
  }

  lemma SynthTimeAt(time: string, w: string, d: string, h: string, m: string)
    requires WellFormedMatch(TimeMatch(w, d, h, m))
    requires MatchTime(time) == Some(TimeMatch(w, d, h, m))
    ensures SynthTime(time) == w + " " + d + " " + PadStart2(NatToString((DigitsValue(h) + 1) % 24)) + ":" + m
  {
    SynthTimeOfMatch(time, TimeMatch(w, d, h, m));
    ShiftHourOf(time, w, d, h, m);
  }

  /** A timestamp without a colon does not match the pattern: the parser fails soft
      to ("", 0), and the synthesised time is the timestamp with " +1h" appended. */
  lemma NoColonFailsSoft(s: string)
    requires forall k :: 0 <= k < |s| ==> s[k] != ':'
    ensures MatchTime(s).None?
    ensures ParseTimeForGrouping(s) == TimeKey("", 0)
    ensures SynthTime(s) == s + " +1h"
  {
    forall k | 0 <= k <= |s| ensures MatchAt(s, k).None? {
    }
  }

  /** On "W D H:M" the synthesised time is "W D H':M" with H' the next hour modulo
      24, zero-padded to two digits. */
  lemma SynthTimeWellFormed(w: string, d: string, h: string, m: string)
    requires WellFormedMatch(TimeMatch(w, d, h, m))
    ensures SynthTime(w + " " + d + " " + h + ":" + m)
      == w + " " + d + " " + PadStart2(NatToString((DigitsValue(h) + 1) % 24)) + ":" + m
  {
    MatchWellFormed(w, d, h, m);
    SynthTimeAt(w + " " + d + " " + h + ":" + m, w, d, h, m);
  }

  /** The padded next hour reads back as that hour. */
  lemma PaddedHourValue(x: nat)
    ensures var h2 := PadStart2(NatToString(x));
      |h2| > 0 && AllDigits(h2) && DigitsValue(h2) == x
  {
    NatToStringRoundTrip(x);
    if |NatToString(x)| < 2 {
      LeadingZeroValue(NatToString(x));
    }
  }

  lemma ReparseAt(w: string, d: string, h: string, m: string, x: nat)
    requires WellFormedMatch(TimeMatch(w, d, h, m)) && DigitsValue(h) == x
    ensures ParseTimeForGrouping(w + " " + d + " " + h + ":" + m)
      == TimeKey(w + " " + NatToString(DigitsValue(d)), x * 60 + DigitsValue(m))
  {
    ParseWellFormed(w, d, h, m);
  }

  lemma SynthKeyAt(w: string, d: string, h: string, m: string, h2: string)
    requires WellFormedMatch(TimeMatch(w, d, h, m))
    requires h2 == PadStart2(NatToString((DigitsValue(h) + 1) % 24))
    ensures ParseTimeForGrouping(SynthTime(w + " " + d + " " + h + ":" + m))
      == ParseTimeForGrouping(w + " " + d + " " + h2 + ":" + m)
  {
    SynthTimeWellFormed(w, d, h, m);
  }

  lemma SynthTimeKeyVia(w: string, d: string, h: string, m: string, h2: string, x: nat)
    requires WellFormedMatch(TimeMatch(w, d, h, m))
    requires x == (DigitsValue(h) + 1) % 24 && h2 == PadStart2(NatToString(x))
    ensures ParseTimeForGrouping(SynthTime(w + " " + d + " " + h + ":" + m))
      == TimeKey(w + " " + NatToString(DigitsValue(d)), x * 60 + DigitsValue(m))
  {
    SynthKeyAt(w, d, h, m, h2);
    PaddedHourValue(x);
    ReparseAt(w, d, h2, m, x);
  }

  /** Read back, the synthesised time of "W D H:M" falls in the bucket of W and D,
      at the next hour modulo 24 and the same minute. */
  lemma SynthTimeKey(w: string, d: string, h: string, m: string)
    requires WellFormedMatch(TimeMatch(w, d, h, m))
    ensures ParseTimeForGrouping(SynthTime(w + " " + d + " " + h + ":" + m))
      == TimeKey(w + " " + NatToString(DigitsValue(d)), ((DigitsValue(h) + 1) % 24) * 60 + DigitsValue(m))
  {
    var x := (DigitsValue(h) + 1) % 24;
    SynthTimeKeyVia(w, d, h, m, PadStart2(NatToString(x)), x);
  }

  /** Read back, the synthesised time is in the same day bucket, one hour later
      (modulo 24), at the same minute. */
  lemma SynthTimeReparse(w: string, d: string, h: string, m: string)
    requires WellFormedMatch(TimeMatch(w, d, h, m))
    ensures var s := w + " " + d + " " + h + ":" + m;
      && ParseTimeForGrouping(SynthTime(s)).dateKey == ParseTimeForGrouping(s).dateKey
      && ParseTimeForGrouping(SynthTime(s)).minutes == ((DigitsValue(h) + 1) % 24) * 60 + DigitsValue(m)
  {
    SynthTimeKey(w, d, h, m);
    ParseWellFormed(w, d, h, m);
  }
}
