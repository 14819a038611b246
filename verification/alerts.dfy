/**
 * The alert-list operations of `src/pages/Alerts.tsx`. Every handler builds a
 * new list from the current one with `map` or `filter` (or replaces it by the
 * empty list); the displayed list is either the whole list or its
 * unacknowledged alerts; two buttons are disabled by conditions on the list.
 */
module AlertsPage {
  import MockData

  type Alert = MockData.Alert

  /** The page's filter choice. */
  datatype Filter = All | Unacknowledged

  /** `s.filter(keep)`: the alerts `keep` accepts, in their original order. */
  function Select(s: seq<Alert>, keep: Alert -> bool): (r: seq<Alert>)
    ensures |r| <= |s|
    ensures forall a :: a in r <==> a in s && keep(a)
  {
    if s == [] then []
    else (if keep(s[0]) then [s[0]] else []) + Select(s[1..], keep)
  }

  /** Every alert `keep` accepts keeps its number of copies; every other alert has none. */
  lemma {:induction false} SelectCounts(s: seq<Alert>, keep: Alert -> bool)
    ensures forall a :: multiset(Select(s, keep))[a] == if keep(a) then multiset(s)[a] else 0
  {
    if s != [] {
      SelectCounts(s[1..], keep);
      assert s == [s[0]] + s[1..];
    }
  }

  /** Filtering distributes over concatenation, so the kept alerts keep their relative order. */
  lemma {:induction false} SelectConcat(s: seq<Alert>, t: seq<Alert>, keep: Alert -> bool)
    ensures Select(s + t, keep) == Select(s, keep) + Select(t, keep)
  {
    if s == [] {
      assert s + t == t;
    } else {
      assert (s + t)[0] == s[0];
      assert (s + t)[1..] == s[1..] + t;
      SelectConcat(s[1..], t, keep);
    }
  }

  /** A filter that keeps every alert is the identity. */
  lemma {:induction false} SelectKeepsAll(s: seq<Alert>, keep: Alert -> bool)
    requires forall a :: a in s ==> keep(a)
    ensures Select(s, keep) == s
  {
    if s != [] {
      assert forall a :: a in s[1..] ==> a in s;
      SelectKeepsAll(s[1..], keep);
      assert s == [s[0]] + s[1..];
    }
  }

  predicate IsUnacknowledged(a: Alert) {
    !a.acknowledged
  }

  /** The test `alert.id !== alertId`. */
  function OtherId(alertId: string): Alert -> bool {
    (a: Alert) => a.id != alertId
  }

  /** `handleAcknowledgeAlert`: the alerts with that id become acknowledged; nothing else changes. */
  function AcknowledgeAlert(alerts: seq<Alert>, alertId: string): (r: seq<Alert>)
    ensures |r| == |alerts|
    ensures forall i :: 0 <= i < |r| ==>
              && r[i].acknowledged == (alerts[i].acknowledged || alerts[i].id == alertId)
              && r[i].(acknowledged := alerts[i].acknowledged) == alerts[i]
  {
    if alerts == [] then []
    else
      [if alerts[0].id == alertId then alerts[0].(acknowledged := true) else alerts[0]]
      + AcknowledgeAlert(alerts[1..], alertId)
  }

  /** `handleDeleteAlert`: the list without the alerts with that id, in the original order. */
  function DeleteAlert(alerts: seq<Alert>, alertId: string): (r: seq<Alert>)
    ensures forall a :: a in r <==> a in alerts && a.id != alertId
    ensures |r| <= |alerts|
  {
    Select(alerts, OtherId(alertId))
  }

  /** `handleAcknowledgeAll`: every alert acknowledged; every other field and the order unchanged. */
  function AcknowledgeAll(alerts: seq<Alert>): (r: seq<Alert>)
    ensures |r| == |alerts|
    ensures forall i :: 0 <= i < |r| ==>
              r[i].acknowledged && r[i].(acknowledged := alerts[i].acknowledged) == alerts[i]
  {
    if alerts == [] then []
    else [alerts[0].(acknowledged := true)] + AcknowledgeAll(alerts[1..])
  }

  /** `handleClearAlerts`: the list becomes empty, whatever it held. */
  function ClearAlerts(alerts: seq<Alert>): (r: seq<Alert>)
    ensures |r| == 0
  {
    []
  }

  /** `filteredAlerts`: the whole list, or its unacknowledged alerts in order. */
  function FilteredAlerts(alerts: seq<Alert>, filter: Filter): (r: seq<Alert>)
    ensures filter == All ==> r == alerts
    ensures filter == Unacknowledged ==> forall a :: a in r <==> a in alerts && !a.acknowledged
  {
    if filter == All then alerts else Select(alerts, IsUnacknowledged)
  }

  /**
   * The "Acknowledge All" button is disabled when the list is empty or all of
   * it is acknowledged; the emptiness test adds nothing, since an empty list
   * is all acknowledged.
   */
  predicate AcknowledgeAllDisabled(alerts: seq<Alert>): (disabled: bool)
    ensures disabled <==> forall i :: 0 <= i < |alerts| ==> alerts[i].acknowledged
  {
    |alerts| == 0 || forall a :: a in alerts ==> a.acknowledged
  }

  /** The "Clear All" button is disabled when the list is empty. */
  predicate ClearAllDisabled(alerts: seq<Alert>): (disabled: bool)
    ensures disabled <==> alerts == []
  {
    |alerts| == 0
  }

  /** Deleting drops every copy of the alerts with that id and keeps every other alert with its number of copies. */
  lemma DeleteAlertCounts(alerts: seq<Alert>, alertId: string)
    ensures forall a :: multiset(DeleteAlert(alerts, alertId))[a] == if a.id != alertId then multiset(alerts)[a] else 0
  {
    SelectCounts(alerts, OtherId(alertId));
  }

  /** The unacknowledged view holds every unacknowledged alert with its number of copies, and nothing else. */
  lemma UnacknowledgedViewCounts(alerts: seq<Alert>)
    ensures forall a :: multiset(FilteredAlerts(alerts, Unacknowledged))[a] == if !a.acknowledged then multiset(alerts)[a] else 0
  {
    SelectCounts(alerts, IsUnacknowledged);
  }

  /** Deleting an id that no alert has changes nothing. */
  lemma DeleteAbsentIsNoOp(alerts: seq<Alert>, alertId: string)
    requires forall a :: a in alerts ==> a.id != alertId
    ensures DeleteAlert(alerts, alertId) == alerts
  {
    SelectKeepsAll(alerts, OtherId(alertId));
  }

  /** Acknowledging the same alert twice is the same as once. */
  lemma AcknowledgeAlertIdempotent(alerts: seq<Alert>, alertId: string)
    ensures AcknowledgeAlert(AcknowledgeAlert(alerts, alertId), alertId) == AcknowledgeAlert(alerts, alertId)
  {
  }

  /** Acknowledging everything twice is the same as once. */
  lemma AcknowledgeAllIdempotent(alerts: seq<Alert>)
    ensures AcknowledgeAll(AcknowledgeAll(alerts)) == AcknowledgeAll(alerts)
  {
  }

  /** "Acknowledge All" is disabled exactly when the unacknowledged view is empty. */
  lemma {:induction false} AcknowledgeAllDisabledIffNothingUnacknowledged(alerts: seq<Alert>)
    ensures AcknowledgeAllDisabled(alerts) <==> FilteredAlerts(alerts, Unacknowledged) == []
  {
    var view := FilteredAlerts(alerts, Unacknowledged);
    if view != [] {
      assert view[0] in view;
    }
  }

  /** "Acknowledge All" is disabled exactly when pressing it would change nothing. */
  lemma AcknowledgeAllDisabledIffNoEffect(alerts: seq<Alert>)
    ensures AcknowledgeAllDisabled(alerts) <==> AcknowledgeAll(alerts) == alerts
  {
    var r := AcknowledgeAll(alerts);
    if r == alerts {
      forall a | a in alerts
        ensures a.acknowledged
      {
        var i :| 0 <= i < |alerts| && alerts[i] == a;
        assert r[i] == a;
      }
    }
    if AcknowledgeAllDisabled(alerts) {
      forall i | 0 <= i < |alerts|
        ensures r[i] == alerts[i]
      {
        assert alerts[i] in alerts;
      }
    }
  }

  /** After "Acknowledge All" the button is disabled and the unacknowledged view is empty. */
  lemma AcknowledgeAllLeavesNothing(alerts: seq<Alert>)
    ensures AcknowledgeAllDisabled(AcknowledgeAll(alerts))
    ensures FilteredAlerts(AcknowledgeAll(alerts), Unacknowledged) == []
  {
    var r := AcknowledgeAll(alerts);
    forall a | a in r
      ensures a.acknowledged
    {
      var i :| 0 <= i < |r| && r[i] == a;
    }
    AcknowledgeAllDisabledIffNothingUnacknowledged(r);
  }

  /** "Clear All" is disabled exactly when pressing it would change nothing; afterwards both buttons are disabled. */
  lemma ClearAllDisabledIffNoEffect(alerts: seq<Alert>)
    ensures ClearAllDisabled(alerts) <==> ClearAlerts(alerts) == alerts
    ensures ClearAllDisabled(ClearAlerts(alerts)) && AcknowledgeAllDisabled(ClearAlerts(alerts))
  {
  }

  /**
   * In the unacknowledged view, acknowledging an alert looks like deleting it:
   * it leaves the view and nothing else moves.
   */
  lemma {:induction false} AcknowledgeLeavesUnacknowledgedView(alerts: seq<Alert>, alertId: string)
    ensures FilteredAlerts(AcknowledgeAlert(alerts, alertId), Unacknowledged)
            == DeleteAlert(FilteredAlerts(alerts, Unacknowledged), alertId)
  {
    if alerts != [] {
      var head := alerts[0];
      var acked := AcknowledgeAlert(alerts, alertId);
      AcknowledgeLeavesUnacknowledgedView(alerts[1..], alertId);
      assert acked[1..] == AcknowledgeAlert(alerts[1..], alertId);
      var uRest := Select(alerts[1..], IsUnacknowledged);
      var headView := if IsUnacknowledged(head) then [head] else [];
      assert Select(alerts, IsUnacknowledged) == headView + uRest;
      SelectConcat(headView, uRest, OtherId(alertId));
    }
  }

  /** Deleting and filtering commute. */
  lemma {:induction false} DeleteCommutesWithView(alerts: seq<Alert>, alertId: string, filter: Filter)
    ensures FilteredAlerts(DeleteAlert(alerts, alertId), filter)
            == DeleteAlert(FilteredAlerts(alerts, filter), alertId)
  {
    if filter == Unacknowledged && alerts != [] {
      var head := alerts[0];
      DeleteCommutesWithView(alerts[1..], alertId, filter);
      var dHead := if head.id != alertId then [head] else [];
      var uHead := if IsUnacknowledged(head) then [head] else [];
      assert DeleteAlert(alerts, alertId) == dHead + DeleteAlert(alerts[1..], alertId);
      SelectConcat(dHead, DeleteAlert(alerts[1..], alertId), IsUnacknowledged);
      assert FilteredAlerts(alerts, filter) == uHead + FilteredAlerts(alerts[1..], filter);
      SelectConcat(uHead, FilteredAlerts(alerts[1..], filter), OtherId(alertId));
    }
  }
}
