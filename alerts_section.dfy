/** The alert list: which alerts are active in a period, the overall status they
    give, and mitigation by id. */
module AlertsSection {
  import opened Types
  import opened DataGenerator

  /** The status dot: no active alert, or the highest severity among them. */
  datatype Status = StatusNone | StatusLow | StatusMedium | StatusHigh

  /** An alert is active when it is not mitigated and its date lies in the period. */
  predicate IsActive(a: Alert, p: Period) {
    !a.mitigated && IsDateInPeriod(a.dateValue, p)
  }

  /** `alerts.filter(...)`: the active alerts, in list order. */
  function ActiveAlerts(alerts: seq<Alert>, p: Period): seq<Alert> {
    if alerts == [] then []
    else ActiveAlerts(alerts[..|alerts| - 1], p)
         + (if IsActive(alerts[|alerts| - 1], p) then [alerts[|alerts| - 1]] else [])
  }

  /** The active alerts are exactly the alerts that are active, and no more of them. */
  lemma {:induction false} ActiveAlertsMembers(alerts: seq<Alert>, p: Period)
    ensures forall a :: a in ActiveAlerts(alerts, p) <==> a in alerts && IsActive(a, p)
    ensures |ActiveAlerts(alerts, p)| <= |alerts|
  {
    if alerts != [] {
      var init := alerts[..|alerts| - 1];
      ActiveAlertsMembers(init, p);
      assert alerts == init + [alerts[|alerts| - 1]];
    }
  }

  /** The filter keeps list order: it distributes over concatenation. */
  lemma {:induction false} ActiveAlertsAppend(a: seq<Alert>, b: seq<Alert>, p: Period)
    ensures ActiveAlerts(a + b, p) == ActiveAlerts(a, p) + ActiveAlerts(b, p)
    decreases |b|
  {
    if b == [] {
      assert a + b == a;
    } else {
      var b0 := b[..|b| - 1];
      assert (a + b)[..|a + b| - 1] == a + b0;
      assert (a + b)[|a + b| - 1] == b[|b| - 1];
      ActiveAlertsAppend(a, b0, p);
    }
  }

  predicate HasSeverity(active: seq<Alert>, s: Severity) {
    exists i :: 0 <= i < |active| && active[i].severity == s
  }

  /** The conditional chain of the status: none, then high, medium, low. */
  function OverallStatus(active: seq<Alert>): Status {
    if |active| == 0 then StatusNone
    else if HasSeverity(active, High) then StatusHigh
    else if HasSeverity(active, Medium) then StatusMedium
    else StatusLow
  }

  /** An independent reading of the status: the highest severity among the alerts. */
  function SeverityRank(s: Severity): nat {
    match s
    case Low => 1
    case Medium => 2
    case High => 3
  }

  function MaxRank(active: seq<Alert>): (r: nat)
    ensures r <= 3
    ensures forall i :: 0 <= i < |active| ==> SeverityRank(active[i].severity) <= r
    ensures active == [] <==> r == 0
    ensures r > 0 ==> exists i :: 0 <= i < |active| && SeverityRank(active[i].severity) == r
  {
    if active == [] then 0
    else
      var m := MaxRank(active[..|active| - 1]);
      var s := SeverityRank(active[|active| - 1].severity);
      assert forall i :: 0 <= i < |active| - 1 ==> active[..|active| - 1][i] == active[i];
      if s > m then s else m
  }

  function StatusRank(s: Status): nat {
    match s
    case StatusNone => 0
    case StatusLow => 1
    case StatusMedium => 2
    case StatusHigh => 3
  }

  /** The status is the rank of the highest active severity; 'none' exactly when no
      alert is active. */
  lemma StatusIsHighestSeverity(active: seq<Alert>)
    ensures StatusRank(OverallStatus(active)) == MaxRank(active)
    ensures OverallStatus(active) == StatusNone <==> active == []
    ensures OverallStatus(active) == StatusHigh <==> HasSeverity(active, High)
    ensures OverallStatus(active) == StatusMedium <==> !HasSeverity(active, High) && HasSeverity(active, Medium)
    ensures OverallStatus(active) == StatusLow <==>
      active != [] && !HasSeverity(active, High) && !HasSeverity(active, Medium)
  {
    var r := MaxRank(active);
    if r > 0 {
      var i :| 0 <= i < |active| && SeverityRank(active[i].severity) == r;
      if !HasSeverity(active, High) {
        assert active[i].severity != High;
      }
      if !HasSeverity(active, High) && !HasSeverity(active, Medium) {
        assert active[i].severity == Low;
      }
    }
    if HasSeverity(active, High) {
      var j :| 0 <= j < |active| && active[j].severity == High;
      assert SeverityRank(active[j].severity) <= r;
    } else if HasSeverity(active, Medium) {
      var j :| 0 <= j < |active| && active[j].severity == Medium;
      assert SeverityRank(active[j].severity) <= r;
    }
  }

  /** `alerts.map(a => a.id === alertId ? { ...a, mitigated: true } : a)`. */
  function MitigateAlert(alerts: seq<Alert>, alertId: int): seq<Alert> {
    seq(|alerts|, i requires 0 <= i < |alerts| =>
      if alerts[i].id == alertId then alerts[i].(mitigated := true) else alerts[i])
  }

  /** Length and order are kept; an alert with that id becomes mitigated and keeps
      every other field; every other alert is unchanged; nothing is un-mitigated. */
  lemma MitigateEffect(alerts: seq<Alert>, alertId: int)
    ensures var r := MitigateAlert(alerts, alertId);
      && |r| == |alerts|
      && (forall i :: 0 <= i < |alerts| ==> r[i].(mitigated := alerts[i].mitigated) == alerts[i])
      && (forall i :: 0 <= i < |alerts| ==> (r[i].mitigated <==> alerts[i].mitigated || alerts[i].id == alertId))
      && (forall i :: 0 <= i < |alerts| && alerts[i].id != alertId ==> r[i] == alerts[i])
  {
  }

  /** Mitigating an id no alert has changes nothing. */
  lemma MitigateAbsent(alerts: seq<Alert>, alertId: int)
    requires forall i :: 0 <= i < |alerts| ==> alerts[i].id != alertId
    ensures MitigateAlert(alerts, alertId) == alerts
  {
    var r := MitigateAlert(alerts, alertId);
    assert forall i :: 0 <= i < |alerts| ==> r[i] == alerts[i];
  }

  /** Mitigating twice is mitigating once. */
  lemma MitigateIdempotent(alerts: seq<Alert>, alertId: int)
    ensures MitigateAlert(MitigateAlert(alerts, alertId), alertId) == MitigateAlert(alerts, alertId)
  {
    var r := MitigateAlert(alerts, alertId);
    var rr := MitigateAlert(r, alertId);
    forall i | 0 <= i < |alerts| ensures rr[i] == r[i] {
      if alerts[i].id == alertId {
        assert r[i].id == alertId && r[i].mitigated;
      }
    }
  }

  /** Mitigations of two ids can be applied in either order. */
  lemma MitigateCommutes(alerts: seq<Alert>, x: int, y: int)
    ensures MitigateAlert(MitigateAlert(alerts, x), y) == MitigateAlert(MitigateAlert(alerts, y), x)
  {
    var a := MitigateAlert(MitigateAlert(alerts, x), y);
    var b := MitigateAlert(MitigateAlert(alerts, y), x);
    forall i | 0 <= i < |alerts| ensures a[i] == b[i] {
    }
  }

  /** Once an id is mitigated, no alert with that id is active in any period. */
  lemma MitigatedNeverActive(alerts: seq<Alert>, alertId: int, p: Period)
    ensures forall a :: a in ActiveAlerts(MitigateAlert(alerts, alertId), p) ==> a.id != alertId
  {
    var r := MitigateAlert(alerts, alertId);
    ActiveAlertsMembers(r, p);
    forall a | a in ActiveAlerts(r, p) ensures a.id != alertId {
      var i :| 0 <= i < |r| && r[i] == a;
    }
  }

  /** Mitigation only shrinks the active list: what stays active was active before. */
  lemma MitigateShrinksActive(alerts: seq<Alert>, alertId: int, p: Period)
    ensures forall a :: a in ActiveAlerts(MitigateAlert(alerts, alertId), p) ==> a in ActiveAlerts(alerts, p)
  {
    var r := MitigateAlert(alerts, alertId);
    ActiveAlertsMembers(r, p);
    ActiveAlertsMembers(alerts, p);
    forall a | a in ActiveAlerts(r, p) ensures a in alerts {
      var i :| 0 <= i < |r| && r[i] == a;
      assert r[i] == alerts[i];
    }
  }
}
