/** The dashboard's value types: periods, severities, meters, actions, reasons,
    connectors, file events, ledger rows and alerts. */
module Types {

  datatype Option<T> = None | Some(value: T) {
    function GetOr(default: T): T {
      match this
      case Some(v) => v
      case None => default
    }
  }

  /** A calendar date, as a whole-day number (days after 31 December 2024). */
  type Day = int

  /** The day number of a date in 2025 (not a leap year). */
  function Date2025(month: int, day: int): Day
    requires 1 <= month <= 12 && 1 <= day <= 31
  {
    [0, 31, 59, 90, 120, 151, 181, 212, 243, 273, 304, 334][month - 1] + day
  }

  /** The reporting window. `Other` stands for a token outside the five named ones,
      which the untyped runtime could still deliver. */
  datatype Period = Last24h | Last7d | Last30d | Last90d | Custom | Other(token: string)

  datatype Severity = High | Medium | Low

  /** The two billable meters: "Unstructured Data Processed" (indexing) and
      "Batch Data Pipeline" (ingestion). */
  datatype Meter = UnstructuredDataProcessed | BatchDataPipeline

  datatype ActionType = Ingestion | Indexing

  datatype UpdateReason = Added | Updated | Deleted

  datatype ConnectorType = GoogleDrive | WebCrawler | SharePoint

  /** A megabyte count parsed from a fixture's size text. */
  type MB = r: real | r >= 0.0

  /** The `type` and `name` keys that spreading a connector object into a fixture entry
      adds. They are keys of their own, not `connectorType`/`connectorName`, and no
      component reads them. */
  datatype SpreadKeys = SpreadKeys(typeKey: ConnectorType, nameKey: string)

  /** One file event of the feed. `size` is `None` when the size text is not numeric;
      `spread` holds the extra keys of an entry built with a connector spread. */
  datatype FileDetail = FileDetail(
    fileName: string,
    fileType: string,
    updateTime: string,
    reason: UpdateReason,
    size: Option<MB>,
    connectorType: Option<ConnectorType>,
    connectorName: Option<string>,
    spread: Option<SpreadKeys>)

  /** `parseFloat(file.size) || 0`. */
  function SizeMB(f: FileDetail): MB {
    f.size.GetOr(0.0)
  }

  /** One date's files per meter; an absent meter key is `None`. */
  datatype MeterFiles = MeterFiles(
    unstructured: Option<seq<FileDetail>>,
    pipeline: Option<seq<FileDetail>>)

  const NoMeterFiles := MeterFiles(None, None)

  /** `filesByMeter[meter] || []`. */
  function FilesOf(m: MeterFiles, meter: Meter): seq<FileDetail> {
    match meter
    case UnstructuredDataProcessed => m.unstructured.GetOr([])
    case BatchDataPipeline => m.pipeline.GetOr([])
  }

  /** The per-date feed, in the insertion order of its date keys. */
  type DateFeed = seq<(Day, MeterFiles)>

  /** One row of the flat ledger table; `credits` is `None` for ingestion rows. */
  datatype FlatTableRow = FlatTableRow(
    fileName: string,
    fileType: string,
    actionType: ActionType,
    time: string,
    size: MB,
    reason: UpdateReason,
    connectorType: ConnectorType,
    udmoName: string,
    ingestionId: string,
    credits: Option<real>)

  /** An alert; `dateValue` is the parsed "MM/DD/YYYY" date. */
  datatype Alert = Alert(
    id: int,
    description: string,
    date: string,
    dateValue: Day,
    severity: Severity,
    mitigated: bool)

  function ConnectorTypeText(t: ConnectorType): string {
    match t
    case GoogleDrive => "Google Drive"
    case WebCrawler => "Web Crawler"
    case SharePoint => "SharePoint"
  }

  function ActionTypeText(a: ActionType): string {
    match a
    case Ingestion => "Ingestion"
    case Indexing => "Indexing"
  }

  /** Indexing credits for a size in MB: 60 per MB. */
  function CreditsOfMB(mb: real): real {
    mb * 60.0
  }

  /** Credits of one indexing event. */
  function IndexingCredits(f: FileDetail): real {
    CreditsOfMB(SizeMB(f))
  }

  /** Credits of one ingestion event: 2000 / 1000000. */
  const PipelineUpdateCredits: real := 0.002
}
