/** The fixture feed and alerts, and connector inference from a file name. */
module MockData {
  import opened Types

  /** Connector types in hash order. */
  const ConnectorTypes: seq<ConnectorType> := [GoogleDrive, WebCrawler, SharePoint]

  /** The fixed display name of each connector type. */
  function ConnectorNameOf(t: ConnectorType): string {
    match t
    case GoogleDrive => "ACME Drive"
    case WebCrawler => "ACME Website"
    case SharePoint => "ACME Sharepoint"
  }

  /** `fileName.split('').reduce((acc, ch) => acc + ch.charCodeAt(0), 0)`. */
  function CharCodeSum(s: string): nat {
    if s == [] then 0 else CharCodeSum(s[..|s| - 1]) + s[|s| - 1] as nat
  }

  datatype Connector = Connector(connectorType: ConnectorType, name: string)

  /** The connector a file name hashes to. */
  function GetConnectorForFile(fileName: string): (c: Connector)
    ensures c.name == ConnectorNameOf(c.connectorType)
  {
    var t := ConnectorTypes[CharCodeSum(fileName) % |ConnectorTypes|];
    Connector(t, ConnectorNameOf(t))
  }

  /** The connector is one of three fixed type/name pairs, chosen by the
      character-code sum modulo 3. */
  lemma ConnectorPairs(fileName: string)
    ensures var c := GetConnectorForFile(fileName);
      var h := CharCodeSum(fileName) % 3;
      && (h == 0 <==> c == Connector(GoogleDrive, "ACME Drive"))
      && (h == 1 <==> c == Connector(WebCrawler, "ACME Website"))
      && (h == 2 <==> c == Connector(SharePoint, "ACME Sharepoint"))
  {
  }

  lemma {:induction false} CharCodeSumAppend(a: string, b: string)
    ensures CharCodeSum(a + b) == CharCodeSum(a) + CharCodeSum(b)
    decreases |b|
  {
    if b == [] {
      assert a + b == a;
    } else {
      assert (a + b)[..|a + b| - 1] == a + b[..|b| - 1];
      assert (a + b)[|a + b| - 1] == b[|b| - 1];
      CharCodeSumAppend(a, b[..|b| - 1]);
    }
  }

  /** The sum depends only on which characters occur, not on their order. */
  lemma {:induction false} CharCodeSumPermutation(a: string, b: string)
    requires multiset(a) == multiset(b)
    ensures CharCodeSum(a) == CharCodeSum(b)
    decreases |a|
  {
    if a != [] {
      var x := a[|a| - 1];
      var a' := a[..|a| - 1];
      assert a == a' + [x];
      assert x in multiset(b);
      var k :| 0 <= k < |b| && b[k] == x;
      var p, q := b[..k], b[k + 1..];
      assert b == p + [x] + q;
      RemoveCharSum(p, x, q);
      RemoveCharMultiset(p, x, q);
      var b' := p + q;
      assert multiset(a) == multiset(a') + multiset{x};
      assert multiset(a') == multiset(b');
      CharCodeSumPermutation(a', b');
      CharCodeSumAppend(a', [x]);
      assert CharCodeSum([x]) == x as nat by {
        assert [x][..0] == [];
      }
    }
  }

  /** Taking a character out of a string takes its code out of the sum. */
  lemma RemoveCharSum(p: string, x: char, q: string)
    ensures CharCodeSum(p + [x] + q) == CharCodeSum(p + q) + x as nat
  {
    CharCodeSumAppend(p, [x]);
    CharCodeSumAppend(p + [x], q);
    CharCodeSumAppend(p, q);
    assert CharCodeSum([x]) == x as nat by {
      assert [x][..0] == [];
    }
  }

  lemma RemoveCharMultiset(p: string, x: char, q: string)
    ensures multiset(p + q) == multiset(p + [x] + q) - multiset{x}
  {
    assert multiset(p + [x] + q) == multiset(p) + multiset{x} + multiset(q);
  }

  /** Names with equal character-code sums get the same connector, so in particular
      two names that are rearrangements of each other do. */
  lemma SameSumSameConnector(a: string, b: string)
    requires CharCodeSum(a) == CharCodeSum(b) || multiset(a) == multiset(b)
    ensures GetConnectorForFile(a) == GetConnectorForFile(b)
  {
    if multiset(a) == multiset(b) { CharCodeSumPermutation(a, b); }
  }

  /** A fixture entry without explicit connector fields. */
  function Entry(fileName: string, fileType: string, updateTime: string,
                 reason: UpdateReason, size: MB): FileDetail
  {
    FileDetail(fileName, fileType, updateTime, reason, Some(size), None, None, None)
  }

  /** A fixture entry with `...getConnectorForFile(fileName)` spread into it. The
      spread object has keys `type` and `name`, so the entry gains those two keys and
      its `connectorType` and `connectorName` stay unset. */
  function WithConnector(fileName: string, fileType: string, updateTime: string,
                         reason: UpdateReason, size: MB): (f: FileDetail)
    ensures f.connectorType.None? && f.connectorName.None?
    ensures f.spread == Some(SpreadKeys(GetConnectorForFile(fileName).connectorType,
                                        GetConnectorForFile(fileName).name))
    ensures f.(spread := None) == Entry(fileName, fileType, updateTime, reason, size)
  {
    var c := GetConnectorForFile(fileName);
    FileDetail(fileName, fileType, updateTime, reason, Some(size), None, None,
               Some(SpreadKeys(c.connectorType, c.name)))
  }

  const AllAlerts: seq<Alert> := [
    Alert(1, "Consumption Spike", "October 31", Date2025(10, 31), High, false),
    Alert(2, "Monthly summary.pdf was updated 4 times in one day", "November 1", Date2025(11, 1), Medium, false),
    Alert(4, "Batch processing delay", "October 25", Date2025(10, 25), Medium, true)
  ]

  // The fixture feed, one constant per date.

  const Fixture9_5: MeterFiles := MeterFiles(
    unstructured := Some([
      WithConnector("User manual.pdf", "PDF", "September 5 13:33", Added, 24.5),
      WithConnector("Product catalog.html", "HTML", "September 5 14:15", Added, 18.2),
      WithConnector("Customer data.png", "PNG", "September 5 15:42", Updated, 32.8)]),
    pipeline := Some([
      WithConnector("User manual.pdf", "PDF", "September 5 10:00", Added, 24.5),
      WithConnector("Product catalog.html", "HTML", "September 5 10:15", Added, 18.2),
      WithConnector("Customer data.png", "PNG", "September 5 10:30", Added, 32.8)]))

  const Fixture9_8: MeterFiles := MeterFiles(
    unstructured := Some([
      Entry("Invoice batch.pdf", "PDF", "September 8 09:15", Added, 28.7),
      Entry("Transaction log.html", "HTML", "September 8 10:30", Added, 35.4),
      Entry("Financial report.pdf", "PDF", "September 8 11:45", Updated, 22.1)]),
    pipeline := Some([
      Entry("Invoice batch.pdf", "PDF", "September 8 08:00", Added, 28.7),
      Entry("Transaction log.html", "HTML", "September 8 08:15", Added, 35.4),
      Entry("Financial report.pdf", "PDF", "September 8 08:30", Added, 22.1)]))

  const Fixture10_3: MeterFiles := MeterFiles(
    unstructured := Some([
      Entry("Processed document.pdf", "PDF", "October 3 11:15", Added, 22.4),
      Entry("Document set.html", "HTML", "October 3 12:00", Updated, 18.0),
      Entry("Content files.png", "PNG", "October 3 12:30", Added, 15.0),
      Entry("Text documents.docx", "Word", "October 3 13:00", Deleted, 12.0)]),
    pipeline := Some([
      Entry("Processed document.pdf", "PDF", "October 3 09:00", Added, 22.4),
      Entry("Document set.html", "HTML", "October 3 09:15", Added, 18.0),
      Entry("Content files.png", "PNG", "October 3 09:30", Added, 15.0),
      Entry("Text documents.docx", "Word", "October 3 09:45", Added, 12.0)]))

  const Fixture10_18: MeterFiles := MeterFiles(
    unstructured := Some([
      Entry("Pipeline data.png", "PNG", "October 18 10:00", Added, 15.6),
      Entry("Batch output.pdf", "PDF", "October 18 10:30", Updated, 12.0),
      Entry("Processed files.html", "HTML", "October 18 11:00", Added, 10.0)]),
    pipeline := Some([
      Entry("Pipeline data.png", "PNG", "October 18 08:00", Added, 15.6),
      Entry("Batch output.pdf", "PDF", "October 18 08:15", Added, 12.0),
      Entry("Processed files.html", "HTML", "October 18 08:30", Added, 10.0)]))

  const Fixture10_28: MeterFiles := MeterFiles(
    unstructured := Some([
      Entry("Pipeline export.png", "PNG", "October 28 09:30", Added, 22.4),
      Entry("Batch output.pdf", "PDF", "October 28 10:00", Updated, 18.0),
      Entry("Processed data.html", "HTML", "October 28 10:30", Added, 15.0)]),
    pipeline := Some([
      Entry("Pipeline export.png", "PNG", "October 28 08:00", Added, 22.4),
      Entry("Batch output.pdf", "PDF", "October 28 08:15", Added, 18.0),
      Entry("Processed data.html", "HTML", "October 28 08:30", Added, 15.0)]))

  const Fixture11_1: MeterFiles := MeterFiles(
    unstructured := Some([
      Entry("November start.pdf", "PDF", "November 1 08:30", Added, 25.3),
      Entry("New month data.html", "HTML", "November 1 10:00", Added, 19.6),
      Entry("Content files.png", "PNG", "November 1 10:30", Updated, 15.0),
      Entry("Monthly summary.pdf", "PDF", "November 1 11:00", Updated, 20.0),
      Entry("Monthly summary.pdf", "PDF", "November 1 13:30", Updated, 20.0),
      Entry("Monthly summary.pdf", "PDF", "November 1 15:45", Updated, 20.0),
      Entry("Monthly summary.pdf", "PDF", "November 1 17:20", Updated, 20.0),
      Entry("Monthly report.docx", "Word", "November 1 12:00", Added, 18.5),
      Entry("Data export.pdf", "PDF", "November 1 13:15", Updated, 22.8)]),
    pipeline := Some([
      Entry("November start.pdf", "PDF", "November 1 07:00", Added, 25.3),
      Entry("New month data.html", "HTML", "November 1 07:15", Added, 19.6),
      Entry("Content files.png", "PNG", "November 1 07:30", Added, 15.0),
      Entry("Monthly summary.pdf", "PDF", "November 1 08:00", Added, 20.0),
      Entry("Monthly report.docx", "Word", "November 1 08:15", Added, 18.5),
      Entry("Data export.pdf", "PDF", "November 1 08:30", Added, 22.8)]))

  const Fixture10_26: MeterFiles := MeterFiles(
    unstructured := Some([
      Entry("Archive pipeline.pdf", "PDF", "October 26 09:00", Added, 14.8),
      Entry("Backup batch.html", "HTML", "October 26 10:30", Updated, 13.5)]),
    pipeline := Some([
      Entry("Archive pipeline.pdf", "PDF", "October 26 08:00", Added, 14.8),
      Entry("Backup batch.html", "HTML", "October 26 08:15", Added, 13.5)]))

  const Fixture10_27: MeterFiles := MeterFiles(
    unstructured := Some([
      Entry("Monday pipeline.pdf", "PDF", "October 27 08:15", Added, 15.3),
      Entry("Weekly batch.html", "HTML", "October 27 09:30", Updated, 14.1),
      Entry("Processed weekly.png", "PNG", "October 27 10:45", Added, 17.9)]),
    pipeline := Some([
      Entry("Monday pipeline.pdf", "PDF", "October 27 07:00", Added, 15.3),
      Entry("Weekly batch.html", "HTML", "October 27 07:15", Added, 14.1),
      Entry("Processed weekly.png", "PNG", "October 27 07:30", Added, 17.9)]))

  const Fixture10_29: MeterFiles := MeterFiles(
    unstructured := Some([
      Entry("Midweek pipeline.pdf", "PDF", "October 29 08:45", Added, 16.5),
      Entry("Updated batch.html", "HTML", "October 29 10:00", Updated, 13.8)]),
    pipeline := Some([
      Entry("Midweek pipeline.pdf", "PDF", "October 29 07:00", Added, 16.5),
      Entry("Updated batch.html", "HTML", "October 29 07:15", Added, 13.8)]))

  const Fixture10_30: MeterFiles := MeterFiles(
    unstructured := Some([
      Entry("Month end pipeline.pdf", "PDF", "October 30 09:00", Added, 18.2),
      Entry("Final batch.html", "HTML", "October 30 10:30", Updated, 16.4),
      Entry("Monthly processed.png", "PNG", "October 30 11:45", Added, 19.8)]),
    pipeline := Some([
      Entry("Month end pipeline.pdf", "PDF", "October 30 07:00", Added, 18.2),
      Entry("Final batch.html", "HTML", "October 30 07:15", Added, 16.4),
      Entry("Monthly processed.png", "PNG", "October 30 07:30", Added, 19.8)]))

  const Fixture10_31: MeterFiles := MeterFiles(
    unstructured := Some([
      WithConnector("Halloween batch.pdf", "PDF", "October 31 08:30", Added, 45.5),
      WithConnector("End month data.html", "HTML", "October 31 10:00", Added, 38.4),
      WithConnector("Final images.png", "PNG", "October 31 11:30", Updated, 42.1),
      WithConnector("Closing documents.docx", "Word", "October 31 13:00", Added, 35.3),
      WithConnector("Spike file 1.pdf", "PDF", "October 31 14:00", Added, 50.0),
      WithConnector("Spike file 2.html", "HTML", "October 31 15:00", Added, 48.2),
      WithConnector("Spike file 3.png", "PNG", "October 31 16:00", Updated, 55.5),
      WithConnector("Spike file 4.docx", "Word", "October 31 17:00", Added, 52.8)]),
    pipeline := Some([
      WithConnector("Halloween batch.pdf", "PDF", "October 31 07:00", Added, 45.5),
      WithConnector("End month data.html", "HTML", "October 31 07:15", Added, 38.4),
      WithConnector("Final images.png", "PNG", "October 31 07:30", Added, 42.1),
      WithConnector("Closing documents.docx", "Word", "October 31 07:45", Added, 35.3),
      WithConnector("Spike file 1.pdf", "PDF", "October 31 08:00", Added, 50.0),
      WithConnector("Spike file 2.html", "HTML", "October 31 08:15", Added, 48.2),
      WithConnector("Spike file 3.png", "PNG", "October 31 08:30", Added, 55.5),
      WithConnector("Spike file 4.docx", "Word", "October 31 08:45", Added, 52.8)]))

  const Fixture9_6: MeterFiles := MeterFiles(
    unstructured := Some([
      Entry("Follow up pipeline.pdf", "PDF", "September 6 09:15", Added, 13.4),
      Entry("Additional batch.html", "HTML", "September 6 10:45", Updated, 12.1)]),
    pipeline := Some([
      Entry("Follow up pipeline.pdf", "PDF", "September 6 08:00", Added, 13.4),
      Entry("Additional batch.html", "HTML", "September 6 08:15", Added, 12.1)]))

  const Fixture9_7: MeterFiles := MeterFiles(
    unstructured := Some([
      Entry("Weekend pipeline.pdf", "PDF", "September 7 10:00", Added, 14.7),
      Entry("Weekend batch.html", "HTML", "September 7 11:30", Updated, 13.2)]),
    pipeline := Some([
      Entry("Weekend pipeline.pdf", "PDF", "September 7 08:00", Added, 14.7),
      Entry("Weekend batch.html", "HTML", "September 7 08:15", Added, 13.2)]))

  const Fixture9_9: MeterFiles := MeterFiles(
    unstructured := Some([
      Entry("Tuesday pipeline.pdf", "PDF", "September 9 08:45", Added, 15.8),
      Entry("Daily batch.html", "HTML", "September 9 10:15", Updated, 14.3)]),
    pipeline := Some([
      Entry("Tuesday pipeline.pdf", "PDF", "September 9 07:00", Added, 15.8),
      Entry("Daily batch.html", "HTML", "September 9 07:15", Added, 14.3)]))

  const Fixture9_10: MeterFiles := MeterFiles(
    unstructured := Some([
      Entry("Wednesday files.pdf", "PDF", "September 10 09:00", Added, 28.6),
      Entry("Midweek data.html", "HTML", "September 10 10:30", Updated, 23.2),
      Entry("Midweek images.png", "PNG", "September 10 12:00", Added, 19.7),
      Entry("Midweek report.docx", "Word", "September 10 13:30", Updated, 16.9)]),
    pipeline := Some([
      Entry("Wednesday pipeline.pdf", "PDF", "September 10 11:00", Added, 16.4),
      Entry("Midweek batch.html", "HTML", "September 10 12:45", Updated, 15.1)]))

  const MockFileDetails: map<Day, MeterFiles> := map[
    Date2025(9, 5) := Fixture9_5,
    Date2025(9, 8) := Fixture9_8,
    Date2025(10, 3) := Fixture10_3,
    Date2025(10, 18) := Fixture10_18,
    Date2025(10, 28) := Fixture10_28,
    Date2025(11, 1) := Fixture11_1,
    Date2025(10, 26) := Fixture10_26,
    Date2025(10, 27) := Fixture10_27,
    Date2025(10, 29) := Fixture10_29,
    Date2025(10, 30) := Fixture10_30,
    Date2025(10, 31) := Fixture10_31,
    Date2025(9, 6) := Fixture9_6,
    Date2025(9, 7) := Fixture9_7,
    Date2025(9, 9) := Fixture9_9,
    Date2025(9, 10) := Fixture9_10
  ]
}
