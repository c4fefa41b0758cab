/** The per-meter view: one collapsible section per meter with its files, its
    credit total and per-file credits, and the set of expanded sections. */
module GroupedView {
  import opened Types
  import opened DataGenerator
  import opened MockData
  import opened FileDetails

  /** The sections in display order. */
  const MeterOrder: seq<Meter> := [UnstructuredDataProcessed, BatchDataPipeline]

  /** The files of a section. The Pipeline section shows the Unstructured list
      whenever that list is present at all, even when it is empty. */
  function SectionFiles(filesByMeter: MeterFiles, meter: Meter): seq<FileDetail> {
    if meter == BatchDataPipeline && filesByMeter.unstructured.Some? then filesByMeter.unstructured.value
    else FilesOf(filesByMeter, meter)
  }

  /** The sections shown, in order: a section with no files is omitted. */
  function VisibleSections(filesByMeter: MeterFiles): seq<Meter> {
    (if SectionFiles(filesByMeter, UnstructuredDataProcessed) == [] then [] else [UnstructuredDataProcessed])
    + (if SectionFiles(filesByMeter, BatchDataPipeline) == [] then [] else [BatchDataPipeline])
  }

  /** A section is shown exactly when it has files; Unstructured comes first; no
      section is shown twice. */
  lemma VisibleSectionsSpec(filesByMeter: MeterFiles)
    ensures var v := VisibleSections(filesByMeter);
      && (forall m :: m in v <==> SectionFiles(filesByMeter, m) != [])
      && (|v| == 2 ==> v == MeterOrder)
      && |v| <= 2
  {
  }

  /** With an Unstructured list present, both sections show that same list, so both
      are shown or neither is; the Pipeline meter's own files are never listed. */
  lemma PipelineShowsUnstructured(filesByMeter: MeterFiles)
    requires filesByMeter.unstructured.Some?
    ensures SectionFiles(filesByMeter, BatchDataPipeline) == SectionFiles(filesByMeter, UnstructuredDataProcessed)
    ensures VisibleSections(filesByMeter) == [] || VisibleSections(filesByMeter) == MeterOrder
  {
  }

  /** An empty Unstructured list (present, but with no files) hides the Pipeline
      section even when the Pipeline meter has files. */
  lemma EmptyUnstructuredHidesPipeline(pipeline: seq<FileDetail>)
    ensures VisibleSections(MeterFiles(Some([]), Some(pipeline))) == []
  {
  }

  /** The credits shown for one file of a section. */
  function FileCredits(meter: Meter, f: FileDetail): real {
    match meter
    case UnstructuredDataProcessed => IndexingCredits(f)
    case BatchDataPipeline => PipelineUpdateCredits
  }

  /** The sum of the per-file credits of a section. */
  function SumCredits(meter: Meter, files: seq<FileDetail>): real {
    if files == [] then 0.0 else SumCredits(meter, files[..|files| - 1]) + FileCredits(meter, files[|files| - 1])
  }

  /** The header total of a section, accumulated file by file. */
  method SectionTotal(meter: Meter, files: seq<FileDetail>) returns (totalCredits: real)
    ensures totalCredits == SumCredits(meter, files)
  {
    totalCredits := 0.0;
    for i := 0 to |files|
      invariant totalCredits == SumCredits(meter, files[..i])
    {
      assert files[..i + 1][..i] == files[..i];
      if meter == UnstructuredDataProcessed {
        var sizeMB := SizeMB(files[i]);
        totalCredits := totalCredits + sizeMB * 60.0;
      } else if meter == BatchDataPipeline {
        totalCredits := totalCredits + 2000.0 / 1000000.0;
      }
    }
    assert files[..|files|] == files;
  }

  /** The Unstructured total equals the chart's indexing bar for the same files;
      the Pipeline total is 0.002 per file, the chart's pipeline bar. */
  lemma {:induction false} SectionTotalByMeter(meter: Meter, files: seq<FileDetail>)
    ensures meter == UnstructuredDataProcessed ==> SumCredits(meter, files) == IndexingTotal(files)
    ensures meter == BatchDataPipeline ==> SumCredits(meter, files) == PipelineTotal(files)
  {
    if files != [] {
      SectionTotalByMeter(meter, files[..|files| - 1]);
    }
  }

  /** Every section total is non-negative. */
  lemma SectionTotalNonNegative(meter: Meter, files: seq<FileDetail>)
    ensures SumCredits(meter, files) >= 0.0
  {
    SectionTotalByMeter(meter, files);
  }

  /** The connector shown on a file's row: the explicit type, else the name hash;
      the explicit name unless empty, else the type's fixed name. */
  function RowConnector(f: FileDetail): Connector {
    var t := ResolveConnectorType(f);
    Connector(t, ResolveConnectorName(f, t))
  }

  /** A file's row shows the connector the ledger gives it, in its Ingestion row as
      in its Indexing row, and a file without connector fields shows the connector
      its name hashes to. */
  lemma RowConnectorAgrees(f: FileDetail, id: string, info: map<string, Info>)
    ensures RowConnector(f).connectorType == IngestionRow(f, id).connectorType
                                         == IndexingRow(f, info, id).connectorType
    ensures RowConnector(f).name == IngestionRow(f, id).udmoName == IndexingRow(f, info, id).udmoName
    ensures f.connectorType.None? && f.connectorName.None? ==> RowConnector(f) == GetConnectorForFile(f.fileName)
  {
    if f.connectorType.None? && f.connectorName.None? {
      ResolveAgreesWithHash(f);
    }
  }

  // ---------------------------------------------------------------------------
  // Expanded sections

  /** `after` is `before` with the membership of `meter`, and only that, flipped. */
  predicate Toggled(before: set<Meter>, after: set<Meter>, meter: Meter) {
    && (meter in after <==> meter !in before)
    && forall m :: m != meter ==> (m in after <==> m in before)
  }

  /** `toggleSection`: copy the set, then delete or add the meter. */
  method ToggleSection(expandedSections: set<Meter>, meterType: Meter) returns (newExpanded: set<Meter>)
    ensures Toggled(expandedSections, newExpanded, meterType)
  {
    newExpanded := expandedSections;
    if meterType in newExpanded {
      newExpanded := newExpanded - {meterType};
    } else {
      newExpanded := newExpanded + {meterType};
    }
  }

  /** A toggle determines the new set, and toggling twice restores the original. */
  lemma ToggleTwiceRestores(s0: set<Meter>, s1: set<Meter>, s2: set<Meter>, meter: Meter)
    requires Toggled(s0, s1, meter) && Toggled(s1, s2, meter)
    ensures s2 == s0
  {
    forall m ensures m in s2 <==> m in s0 {
      if m == meter {
      }
    }
  }

  lemma ToggledUnique(s0: set<Meter>, s1: set<Meter>, s1': set<Meter>, meter: Meter)
    requires Toggled(s0, s1, meter) && Toggled(s0, s1', meter)
    ensures s1 == s1'
  {
    forall m ensures m in s1 <==> m in s1' {
      if m == meter {
      }
    }
  }
}
