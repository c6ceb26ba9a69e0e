/**
 * Purchase alerts: the stored alert rows, the operator actions that move an alert between
 * active, snoozed and resolved, and the listing and statistics of `GET /api/purchase-alerts`.
 */
module PurchaseAlerts {
  import opened Wrappers
  import opened Text
  import opened Ranking

  /** One alert row; the JSON-encoded lists are kept as lists. */
  datatype Alert = Alert(
    conversationId: nat,
    clientEmail: string,
    alertType: string,
    priority: string,
    readinessScore: real,
    estimatedValue: real,
    estimatedCloseTime: string,
    readySignals: seq<string>,
    immediateActions: seq<string>,
    nextSteps: seq<string>,
    isActive: bool,
    isResolved: bool,
    notes: Option<string>,
    resolvedAt: Option<int>,
    resolvedBy: Option<string>,
    createdAt: int,
    updatedAt: int)

  /** Operator view of an alert. */
  predicate IsActive(a: Alert) { a.isActive && !a.isResolved }

  /**
   * `resolve`: closed for good by hand; notes are the given text or cleared. The route does not
   * write `updatedAt`; the store refreshes it on every update, as for the other two actions.
   */
  function Resolve(a: Alert, notes: string, now: int): (r: Alert)
    ensures r.isResolved && !r.isActive
    ensures r.resolvedAt == Some(now) && r.resolvedBy == Some("manual") && r.updatedAt == now
    ensures r.notes == (if notes == "" then None else Some(notes))
    ensures r.(isActive := a.isActive, isResolved := a.isResolved, notes := a.notes,
               resolvedAt := a.resolvedAt, resolvedBy := a.resolvedBy, updatedAt := a.updatedAt) == a
  {
    a.(isResolved := true, isActive := false, resolvedAt := Some(now), resolvedBy := Some("manual"),
       notes := if notes == "" then None else Some(notes), updatedAt := now)
  }

  /** `snooze`: only the active flag and the notes change. */
  function Snooze(a: Alert, notes: string, now: int): (r: Alert)
    ensures !r.isActive && r.isResolved == a.isResolved
    ensures r.notes == Some(if notes == "" then "Snoozed by user" else notes)
    ensures r.(isActive := a.isActive, notes := a.notes, updatedAt := a.updatedAt) == a
  {
    a.(isActive := false, notes := Some(if notes == "" then "Snoozed by user" else notes), updatedAt := now)
  }

  /** `reactivate`: active and unresolved again; the resolution stamp stays. */
  function Reactivate(a: Alert, notes: string, now: int): (r: Alert)
    ensures r.isActive && !r.isResolved
    ensures r.resolvedAt == a.resolvedAt && r.resolvedBy == a.resolvedBy
    ensures r.notes == Some(if notes == "" then "Reactivated by user" else notes)
    ensures r.(isActive := a.isActive, isResolved := a.isResolved, notes := a.notes, updatedAt := a.updatedAt) == a
  {
    a.(isActive := true, isResolved := false,
       notes := Some(if notes == "" then "Reactivated by user" else notes), updatedAt := now)
  }

  predicate KnownAction(action: string) { action in {"resolve", "snooze", "reactivate"} }

  /** The new row an action produces. */
  function Transition(action: string, a: Alert, notes: string, now: int): Alert
    requires KnownAction(action)
  {
    if action == "resolve" then Resolve(a, notes, now)
    else if action == "snooze" then Snooze(a, notes, now)
    else Reactivate(a, notes, now)
  }

  /** The `where` object of the listing; `None` is an absent key. */
  datatype AlertWhere = AlertWhere(isActive: Option<bool>, isResolved: Option<bool>, priority: Option<string>)

  predicate Matches(w: AlertWhere, a: Alert)
  {
    (w.isActive.None? || w.isActive.value == a.isActive)
    && (w.isResolved.None? || w.isResolved.value == a.isResolved)
    && (w.priority.None? || w.priority.value == a.priority)
  }

  /** The status parameter (`active` when absent or empty) and the priority parameter. */
  function BuildWhere(status: string, priority: string): (w: AlertWhere)
    ensures priority != "" ==> w.priority == Some(priority)
    ensures priority == "" && status != "urgent" ==> w.priority.None?
  {
    var status := if status == "" then "active" else status;
    var w :=
      if status == "active" then AlertWhere(Some(true), Some(false), None)
      else if status == "resolved" then AlertWhere(None, Some(true), None)
      else if status == "urgent" then AlertWhere(Some(true), Some(false), Some("URGENT"))
      else AlertWhere(None, None, None);
    if priority != "" then w.(priority := Some(priority)) else w
  }

  /** What each status filter selects when no priority parameter is given. */
  lemma StatusFilterMeaning(a: Alert, status: string)
    ensures status in {"", "active"} ==> (Matches(BuildWhere(status, ""), a) <==> IsActive(a))
    ensures status == "resolved" ==> (Matches(BuildWhere(status, ""), a) <==> a.isResolved)
    ensures status == "urgent" ==> (Matches(BuildWhere(status, ""), a) <==> IsActive(a) && a.priority == "URGENT")
    ensures status !in {"", "active", "resolved", "urgent"} ==> Matches(BuildWhere(status, ""), a)
  {
  }

  /** A priority parameter replaces the URGENT constraint of the `urgent` status. */
  lemma PriorityParameterOverridesStatus(a: Alert, priority: string)
    requires priority != ""
    ensures Matches(BuildWhere("urgent", priority), a) <==> IsActive(a) && a.priority == priority
  {
  }

  /** A snoozed alert that was not resolved drops out of every status view. */
  lemma SnoozedAlertIsHidden(a: Alert, notes: string, now: int)
    requires !a.isResolved
    ensures !Matches(BuildWhere("active", ""), Snooze(a, notes, now))
    ensures !Matches(BuildWhere("urgent", ""), Snooze(a, notes, now))
    ensures !Matches(BuildWhere("resolved", ""), Snooze(a, notes, now))
  {
  }

  /** Reactivation puts an alert back in the active view, whatever state it was in. */
  lemma ReactivatedAlertIsActive(a: Alert, notes: string, now: int)
    ensures Matches(BuildWhere("active", ""), Reactivate(a, notes, now))
    ensures !Matches(BuildWhere("resolved", ""), Reactivate(a, notes, now))
  {
  }

  /** Code-point order of the priority strings: HIGH < LOW < MEDIUM < URGENT. */
  lemma PriorityStringOrder()
    ensures LexLess("HIGH", "LOW") && LexLess("LOW", "MEDIUM") && LexLess("MEDIUM", "URGENT")
  {
    assert LexLess("HIGH", "LOW");
    assert LexLess("LOW", "MEDIUM");
    assert LexLess("MEDIUM", "URGENT");
  }

  /** `orderBy: priority desc, readinessScore desc, createdAt desc`. */
  predicate AlertGe(a: Alert, b: Alert)
  {
    LexLess(b.priority, a.priority)
    || (a.priority == b.priority
        && (a.readinessScore > b.readinessScore
            || (a.readinessScore == b.readinessScore && a.createdAt >= b.createdAt)))
  }

  lemma AlertOrderIsTotalPreorder()
    ensures TotalPreorder(AlertGe)
  {
    forall a, b ensures AlertGe(a, b) || AlertGe(b, a) {
      LexTrichotomy(a.priority, b.priority);
    }
    forall a, b, c | AlertGe(a, b) && AlertGe(b, c) ensures AlertGe(a, c) {
      LexTrichotomy(a.priority, c.priority);
      if LexLess(b.priority, a.priority) && LexLess(c.priority, b.priority) {
        LexTransitive(c.priority, b.priority, a.priority);
      }
    }
  }

  /** `parseInt(limit) || 50`: a missing, unparsable or zero limit means 50. */
  function ParseLimit(limit: Option<int>): (r: int)
    ensures r != 0
    ensures limit.Some? && limit.value != 0 ==> r == limit.value
  {
    if limit.None? || limit.value == 0 then 50 else limit.value
  }

  /**
   * The alerts listed: the matching rows in order, the first `limit` of them; a negative
   * `take` counts from the end of the ordering.
   */
  function ListAlerts(rows: seq<Alert>, w: AlertWhere, limit: int): (r: seq<Alert>)
    ensures forall a :: a in r ==> a in rows && Matches(w, a)
    ensures |r| <= (if limit >= 0 then limit else -limit)
    ensures var matching := Filter(rows, (a: Alert) => Matches(w, a));
            var n := if limit >= 0 then limit else -limit;
            |r| == (if n < |matching| then n else |matching|) && multiset(r) <= multiset(matching)
  {
    var matching := Filter(rows, (a: Alert) => Matches(w, a));
    var r := if limit >= 0 then Top(matching, AlertGe, limit) else Bottom(matching, AlertGe, -limit);
    forall a | a in r ensures a in rows && Matches(w, a) {
      assert a in multiset(matching);
    }
    r
  }

  /** With a non-negative limit the list is ordered and no left-out match outranks a listed one. */
  lemma ListAlertsIsBestFirst(rows: seq<Alert>, w: AlertWhere, limit: nat)
    ensures SortedDesc(ListAlerts(rows, w, limit), AlertGe)
    ensures forall x, y :: x in ListAlerts(rows, w, limit)
                           && y in multiset(Filter(rows, (a: Alert) => Matches(w, a))) - multiset(ListAlerts(rows, w, limit))
                           ==> AlertGe(x, y)
  {
    AlertOrderIsTotalPreorder();
    TopIsBest(Filter(rows, (a: Alert) => Matches(w, a)), AlertGe, limit);
  }

  function SumValue(rows: seq<Alert>): real
  {
    if rows == [] then 0.0 else rows[0].estimatedValue + SumValue(rows[1..])
  }

  function SumScore(rows: seq<Alert>): real
  {
    if rows == [] then 0.0 else rows[0].readinessScore + SumScore(rows[1..])
  }

  datatype AlertStats = AlertStats(urgent: nat, high: nat, medium: nat, resolved: nat,
                                   totalValue: real, averageScore: real)

  function ActiveWith(rows: seq<Alert>, priority: string): seq<Alert>
  {
    Filter(rows, (a: Alert) => IsActive(a) && a.priority == priority)
  }

  /** The statistics block: counts and sums over active unresolved alerts, 0 when there are none. */
  function Stats(rows: seq<Alert>): (s: AlertStats)
    ensures s.urgent == |ActiveWith(rows, "URGENT")| && s.high == |ActiveWith(rows, "HIGH")|
    ensures s.medium == |ActiveWith(rows, "MEDIUM")|
    ensures s.resolved == |Filter(rows, (a: Alert) => a.isResolved)|
    ensures s.totalValue == SumValue(Filter(rows, IsActive))
    ensures Filter(rows, IsActive) == [] ==> s.totalValue == 0.0 && s.averageScore == 0.0
    ensures Filter(rows, IsActive) != [] ==>
              s.averageScore == SumScore(Filter(rows, IsActive)) / (|Filter(rows, IsActive)| as real)
  {
    var active := Filter(rows, IsActive);
    AlertStats(|ActiveWith(rows, "URGENT")|, |ActiveWith(rows, "HIGH")|, |ActiveWith(rows, "MEDIUM")|,
               |Filter(rows, (a: Alert) => a.isResolved)|,
               SumValue(active),
               if active == [] then 0.0 else SumScore(active) / (|active| as real))
  }

  lemma {:induction false} SumValueAppend(a: seq<Alert>, b: seq<Alert>)
    ensures SumValue(a + b) == SumValue(a) + SumValue(b)
  {
    if a != [] {
      assert (a + b)[1..] == a[1..] + b;
      SumValueAppend(a[1..], b);
    } else {
      assert a + b == b;
    }
  }

  /** A new active alert adds its estimated value to the total; an inactive or resolved one leaves it. */
  lemma NewAlertAddsToTotal(rows: seq<Alert>, x: Alert)
    ensures Stats(rows + [x]).totalValue == Stats(rows).totalValue + (if IsActive(x) then x.estimatedValue else 0.0)
  {
    FilterAppend(rows, [x], IsActive);
    SumValueAppend(Filter(rows, IsActive), Filter([x], IsActive));
    assert Filter([x], IsActive) == (if IsActive(x) then [x] else []) by {
      assert [x][1..] == [];
    }
  }

  lemma {:induction false} SumScoreBounds(rows: seq<Alert>)
    requires forall a :: a in rows ==> 0.0 <= a.readinessScore <= 1.0
    ensures 0.0 <= SumScore(rows) <= |rows| as real
  {
    if rows != [] {
      assert rows[0] in rows;
      SumScoreBounds(rows[1..]);
    }
  }

  lemma RatioBounded(sum: real, n: real)
    requires n > 0.0 && 0.0 <= sum <= n
    ensures 0.0 <= sum / n <= 1.0
  {
    assert sum / n * n == sum;
  }

  /** Scores in [0, 1] average to a score in [0, 1]. */
  lemma AverageScoreBounded(rows: seq<Alert>)
    requires forall a :: a in rows ==> 0.0 <= a.readinessScore <= 1.0
    ensures 0.0 <= Stats(rows).averageScore <= 1.0
  {
    var active := Filter(rows, IsActive);
    SumScoreBounds(active);
    if active != [] {
      RatioBounded(SumScore(active), |active| as real);
    }
  }

  lemma ActiveWithIgnoresInactive(rows: seq<Alert>, a: Alert, p: string)
    requires !a.isActive
    ensures ActiveWith(rows + [a], p) == ActiveWith(rows, p)
  {
    FilterAppend(rows, [a], (b: Alert) => IsActive(b) && b.priority == p);
    assert Filter([a], (b: Alert) => IsActive(b) && b.priority == p) == [];
  }

  /** An alert that is not active leaves every statistic except `resolved` as it was. */
  lemma InactiveAlertNotCounted(rows: seq<Alert>, a: Alert)
    requires !a.isActive
    ensures Stats(rows + [a]).urgent == Stats(rows).urgent
    ensures Stats(rows + [a]).high == Stats(rows).high
    ensures Stats(rows + [a]).medium == Stats(rows).medium
    ensures Stats(rows + [a]).totalValue == Stats(rows).totalValue
    ensures Stats(rows + [a]).averageScore == Stats(rows).averageScore
  {
    FilterAppend(rows, [a], IsActive);
    assert Filter([a], IsActive) == [];
    assert Filter(rows + [a], IsActive) == Filter(rows, IsActive);
    ActiveWithIgnoresInactive(rows, a, "URGENT");
    ActiveWithIgnoresInactive(rows, a, "HIGH");
    ActiveWithIgnoresInactive(rows, a, "MEDIUM");
  }

  /** The outcome of `POST /api/purchase-alerts`. */
  datatype ActionResult = Changed(alert: Alert) | UnknownAction | ServerError

  /** The alert table. Rows are never deleted, so a row's id is its position. */
  class AlertTable {
    var alerts: seq<Alert>

    constructor()
      ensures alerts == []
    {
      alerts := [];
    }

    /** `prisma.purchaseAlert.create`. */
    method Create(a: Alert) returns (id: nat)
      modifies this
      ensures alerts == old(alerts) + [a]
      ensures id == |old(alerts)| && alerts[id] == a
    {
      id := |alerts|;
      alerts := alerts + [a];
    }

    /**
     * `POST`: an unknown action is refused before any lookup; a known action on a missing
     * id fails; otherwise exactly that row is replaced by its transition.
     */
    method Post(action: string, alertId: Option<nat>, notes: string, now: int) returns (r: ActionResult)
      modifies this
      ensures !KnownAction(action) ==> r == UnknownAction && alerts == old(alerts)
      ensures KnownAction(action) && (alertId.None? || alertId.value >= |old(alerts)|) ==>
                r == ServerError && alerts == old(alerts)
      ensures KnownAction(action) && alertId.Some? && alertId.value < |old(alerts)| ==>
                r == Changed(Transition(action, old(alerts)[alertId.value], notes, now))
                && alerts == old(alerts)[alertId.value := r.alert]
    {
      if !KnownAction(action) {
        return UnknownAction;
      }
      if alertId.None? || alertId.value >= |alerts| {
        return ServerError;
      }
      var updated := Transition(action, alerts[alertId.value], notes, now);
      alerts := alerts[alertId.value := updated];
      r := Changed(updated);
    }
  }
}
