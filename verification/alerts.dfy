/**
 * The alert store of backend/services/alert_service.py (class AlertService): an in-memory
 * list of alert records that grows by appending, is queried per user newest-first, and whose
 * records are updated in place by acknowledgement and by the SMS fallback. Record ids,
 * clock readings and the `:.4f` coordinate formatting enter as parameters.
 */
module Alerts {
  import opened Wrappers
  import opened Sensors
  import opened Sorting
  import opened Slices

  /** What a caller hands to the service (the alert model of the API). */
  datatype AlertInput = AlertInput(userId: string, alertType: string, priority: string, message: string,
                                   confidence: real, timestamp: int, location: Option<Location>)

  /** One stored alert; the optional fields are keys that a later `dict.update` adds. */
  datatype StoredAlert = StoredAlert(
    id: string, userId: string, alertType: string, priority: string, message: string,
    confidence: real, timestamp: int, location: Option<Location>,
    acknowledged: bool, authoritiesNotified: bool,
    acknowledgedBy: Option<string>, acknowledgedAt: Option<string>,
    smsSent: bool, smsSentAt: Option<string>)

  /** The record `store_alert` builds: neither acknowledged nor notified yet. */
  function NewRecord(input: AlertInput, id: string): (a: StoredAlert)
    ensures a.id == id && a.userId == input.userId && a.timestamp == input.timestamp
    ensures !a.acknowledged && !a.authoritiesNotified && !a.smsSent
    ensures a.acknowledgedBy.None? && a.acknowledgedAt.None? && a.smsSentAt.None?
  {
    StoredAlert(id, input.userId, input.alertType, input.priority, input.message, input.confidence,
                input.timestamp, input.location, false, false, None, None, false, None)
  }

  // ---------------------------------------------------------------- queries

  /** The list comprehension of `get_user_alerts`: the user's alerts in storage order. */
  function OfUser(storage: seq<StoredAlert>, userId: string): (r: seq<StoredAlert>)
    ensures |r| <= |storage|
    ensures forall k :: 0 <= k < |r| ==> r[k].userId == userId
  {
    if storage == [] then []
    else
      var last := storage[|storage| - 1];
      OfUser(storage[..|storage| - 1], userId) + (if last.userId == userId then [last] else [])
  }

  /** The comprehension keeps exactly the user's alerts. */
  lemma {:induction false} OfUserMembers(storage: seq<StoredAlert>, userId: string, a: StoredAlert)
    ensures a in OfUser(storage, userId) <==> a in storage && a.userId == userId
  {
    if storage != [] {
      var init := storage[..|storage| - 1];
      OfUserMembers(init, userId, a);
      assert storage == init + [storage[|storage| - 1]];
    }
  }

  /** Appending a record for another user leaves a user's alerts unchanged. */
  lemma OfUserAppend(storage: seq<StoredAlert>, a: StoredAlert, userId: string)
    ensures OfUser(storage + [a], userId) == OfUser(storage, userId) + (if a.userId == userId then [a] else [])
  {
    assert (storage + [a])[..|storage|] == storage;
  }

  /** `reverse=True` on the timestamp is a stable ascending sort on the negated timestamp. */
  function NewestFirst(a: StoredAlert): real { -(a.timestamp as real) }

  /** `user_alerts[:limit]` after sorting newest first. */
  function RecentAlerts(storage: seq<StoredAlert>, userId: string, limit: int): (r: seq<StoredAlert>)
    ensures forall k :: 0 <= k < |r| ==> r[k].userId == userId && r[k] in storage
    ensures forall i, j :: 0 <= i < j < |r| ==> r[i].timestamp >= r[j].timestamp
    ensures limit >= 0 ==> |r| == (if limit < |OfUser(storage, userId)| then limit else |OfUser(storage, userId)|)
  {
    var mine := OfUser(storage, userId);
    var sorted := SortBy(mine, NewestFirst);
    SortBySorted(mine, NewestFirst);
    var r := Prefix(sorted, limit);
    forall k | 0 <= k < |r| ensures r[k].userId == userId && r[k] in storage {
      assert r[k] == sorted[k];
      SortByMembers(mine, NewestFirst, r[k]);
      OfUserMembers(storage, userId, r[k]);
    }
    r
  }

  /** No alert of the user left out by the limit is newer than one returned. */
  lemma RecentAlertsAreNewest(storage: seq<StoredAlert>, userId: string, limit: int, x: StoredAlert, y: StoredAlert)
    requires x in RecentAlerts(storage, userId, limit)
    requires y in storage && y.userId == userId && y !in RecentAlerts(storage, userId, limit)
    ensures y.timestamp <= x.timestamp
  {
    var mine := OfUser(storage, userId);
    var sorted := SortBy(mine, NewestFirst);
    SortBySorted(mine, NewestFirst);
    var r := RecentAlerts(storage, userId, limit);
    assert r == Prefix(sorted, limit);
    OfUserMembers(storage, userId, y);
    SortByMembers(mine, NewestFirst, y);
    var j :| 0 <= j < |sorted| && sorted[j] == y;
    var i :| 0 <= i < |r| && r[i] == x;
    assert sorted[i] == x;
    assert j >= |r|;
    assert NewestFirst(sorted[i]) <= NewestFirst(sorted[j]);
  }

  /** A limit at least as large as the user's history returns all of it, reordered. */
  lemma RecentAlertsComplete(storage: seq<StoredAlert>, userId: string, limit: int)
    requires limit >= |OfUser(storage, userId)|
    ensures multiset(RecentAlerts(storage, userId, limit)) == multiset(OfUser(storage, userId))
  {
    var sorted := SortBy(OfUser(storage, userId), NewestFirst);
    assert Prefix(sorted, limit) == sorted;
  }

  /** What the `for ... break` loops look for: an alert id, or the owning user. */
  datatype Selector = WithId(id: string) | OfOwner(userId: string)

  predicate Selects(sel: Selector, a: StoredAlert)
  {
    match sel
    case WithId(id) => a.id == id
    case OfOwner(userId) => a.userId == userId
  }

  /** The index of the first record the selector picks, as the `for ... break` loops find it. */
  function FirstMatch(storage: seq<StoredAlert>, sel: Selector): (r: Option<nat>)
    ensures r.None? <==> forall k :: 0 <= k < |storage| ==> !Selects(sel, storage[k])
    ensures r.Some? ==> r.value < |storage| && Selects(sel, storage[r.value])
    ensures r.Some? ==> forall k :: 0 <= k < r.value ==> !Selects(sel, storage[k])
  {
    if storage == [] then None
    else if Selects(sel, storage[0]) then Some(0)
    else
      var rest := FirstMatch(storage[1..], sel);
      assert forall k :: 1 <= k < |storage| ==> storage[k] == storage[1..][k - 1];
      if rest.None? then None else Some(rest.value + 1)
  }

  function Acknowledged(a: StoredAlert, agent: string, at: string): StoredAlert
  {
    a.(acknowledged := true, acknowledgedBy := Some(agent), acknowledgedAt := Some(at))
  }

  function SmsMarked(a: StoredAlert, at: string): StoredAlert
  {
    a.(smsSent := true, smsSentAt := Some(at))
  }

  // ---------------------------------------------------------------- notification

  datatype Dispatch = Immediate | Priority | Standard

  /** The strategy by priority: "critical" and "high" escalate, anything else is standard. */
  function DispatchFor(priority: string): (d: Dispatch)
    ensures d == Immediate <==> priority == "critical"
    ensures d == Priority <==> priority == "high"
    ensures d == Standard <==> priority != "critical" && priority != "high"
  {
    if priority == "critical" then Immediate
    else if priority == "high" then Priority
    else Standard
  }

  /** The payload sent to authorities. */
  datatype Notification = Notification(alertId: Option<string>, userId: string, alertType: string, priority: string,
                                       message: string, location: Option<Location>, timestamp: int,
                                       confidence: real, dispatch: Dispatch)

  /**
   * `notify_authorities`: the alert's fields and its `id` attribute, which is `None` when the
   * object has none, plus the strategy its priority selects.
   */
  function NotifyAuthorities(input: AlertInput, id: Option<string>): (n: Notification)
    ensures n.alertId == id && n.userId == input.userId && n.alertType == input.alertType
    ensures n.priority == input.priority && n.message == input.message && n.location == input.location
    ensures n.dispatch == DispatchFor(input.priority)
  {
    Notification(id, input.userId, input.alertType, input.priority, input.message, input.location,
                 input.timestamp, input.confidence, DispatchFor(input.priority))
  }

  // ---------------------------------------------------------------- SMS text

  const SmsLimit: nat := 160
  const SmsHeader: string := "YatriGuard ALERT: "

  type CoordinateFormat = real -> string

  function Digit(d: nat): (c: char)
    requires d < 10
  {
    "0123456789"[d]
  }

  /** `%H` or `%M`: two digits with a leading zero. */
  function TwoDigits(n: nat): (s: string)
    requires n < 100
    ensures |s| == 2
  {
    [Digit(n / 10), Digit(n % 10)]
  }

  function LocationText(location: Option<Location>, fmt: CoordinateFormat): string
  {
    if location.None? then ""
    else " at " + fmt(location.value.latitude) + "," + fmt(location.value.longitude)
  }

  /** The message before the length cut. */
  function SmsText(input: AlertInput, hour: nat, minute: nat, fmt: CoordinateFormat): (s: string)
    requires hour < 24 && minute < 60
    ensures |s| == |SmsHeader| + |input.message| + |LocationText(input.location, fmt)| + 13
  {
    SmsHeader + input.message + LocationText(input.location, fmt) + ". Time: " + TwoDigits(hour) + ":" + TwoDigits(minute)
  }

  /**
   * `_format_sms_message`: the text cut to 160 characters, so a short message goes out whole
   * and a long one loses its tail, never its header.
   */
  function FormatSms(input: AlertInput, hour: nat, minute: nat, fmt: CoordinateFormat): (sms: string)
    requires hour < 24 && minute < 60
    ensures |sms| <= SmsLimit
    ensures var full := SmsText(input, hour, minute, fmt);
      && |sms| <= |full|
      && sms == full[..|sms|]
      && (|full| <= SmsLimit ==> sms == full)
      && (|full| > SmsLimit ==> |sms| == SmsLimit)
    ensures sms[..|SmsHeader|] == SmsHeader
  {
    var full := SmsText(input, hour, minute, fmt);
    var sms := Prefix(full, SmsLimit as int);
    assert full[..|SmsHeader|] == SmsHeader;
    assert sms[..|SmsHeader|] == full[..|SmsHeader|];
    sms
  }

  /** A message short enough to fit with the header and the time survives intact. */
  lemma ShortMessageSurvives(input: AlertInput, hour: nat, minute: nat, fmt: CoordinateFormat)
    requires hour < 24 && minute < 60
    requires input.location.None? && |input.message| <= SmsLimit - |SmsHeader| - 13
    ensures FormatSms(input, hour, minute, fmt)[|SmsHeader|..|SmsHeader| + |input.message|] == input.message
  {
    var full := SmsText(input, hour, minute, fmt);
    assert full == SmsHeader + input.message + (". Time: " + TwoDigits(hour) + ":" + TwoDigits(minute));
    assert full[|SmsHeader|..|SmsHeader| + |input.message|] == input.message;
  }

  // ---------------------------------------------------------------- the service

  class AlertService {
    var storage: seq<StoredAlert>

    constructor ()
      ensures storage == []
    {
      storage := [];
    }

    /** `store_alert`: appends a fresh record and returns its id (the uuid is `freshId`). */
    method StoreAlert(input: AlertInput, freshId: string) returns (id: string)
      modifies this
      ensures id == freshId
      ensures storage == old(storage) + [NewRecord(input, freshId)]
    {
      var record := NewRecord(input, freshId);
      storage := storage + [record];
      return record.id;
    }

    /** `get_user_alerts`. */
    function GetUserAlerts(userId: string, limit: int): (r: seq<StoredAlert>)
      reads this
      ensures r == RecentAlerts(storage, userId, limit)
    {
      RecentAlerts(storage, userId, limit)
    }

    /**
     * `acknowledge_alert`: marks the first record with the id and reports whether there was
     * one; every other record stays as it was.
     */
    method AcknowledgeAlert(alertId: string, acknowledgedBy: string, at: string) returns (found: bool)
      modifies this
      ensures found <==> FirstMatch(old(storage), WithId(alertId)).Some?
      ensures found ==> var i := FirstMatch(old(storage), WithId(alertId)).value;
        storage == old(storage)[i := Acknowledged(old(storage)[i], acknowledgedBy, at)]
      ensures !found ==> storage == old(storage)
    {
      for i := 0 to |storage|
        invariant storage == old(storage)
        invariant forall k :: 0 <= k < i ==> !Selects(WithId(alertId), storage[k])
      {
        if storage[i].id == alertId {
          storage := storage[i := Acknowledged(storage[i], acknowledgedBy, at)];
          return true;
        }
      }
      return false;
    }

    /**
     * `_update_alert_status` as `send_sms_alert` calls it: marks the first stored record of
     * the user, whichever alert the SMS was about.
     */
    method UpdateAlertStatus(userId: string, at: string)
      modifies this
      ensures FirstMatch(old(storage), OfOwner(userId)).None? ==> storage == old(storage)
      ensures FirstMatch(old(storage), OfOwner(userId)).Some? ==> var i := FirstMatch(old(storage), OfOwner(userId)).value;
        storage == old(storage)[i := SmsMarked(old(storage)[i], at)]
    {
      for i := 0 to |storage|
        invariant storage == old(storage)
        invariant forall k :: 0 <= k < i ==> !Selects(OfOwner(userId), storage[k])
      {
        if storage[i].userId == userId {
          storage := storage[i := SmsMarked(storage[i], at)];
          return;
        }
      }
    }

    /** `send_sms_alert`: formats the text and records the sending. */
    method SendSmsAlert(input: AlertInput, hour: nat, minute: nat, fmt: CoordinateFormat, at: string)
      returns (sms: string)
      requires hour < 24 && minute < 60
      modifies this
      ensures sms == FormatSms(input, hour, minute, fmt)
      ensures FirstMatch(old(storage), OfOwner(input.userId)).Some? ==> var i := FirstMatch(old(storage), OfOwner(input.userId)).value;
        storage == old(storage)[i := SmsMarked(old(storage)[i], at)]
      ensures FirstMatch(old(storage), OfOwner(input.userId)).None? ==> storage == old(storage)
    {
      sms := FormatSms(input, hour, minute, fmt);
      UpdateAlertStatus(input.userId, at);
    }
  }

  /** Storing then acknowledging by the fresh id finds the new record when the id is unused. */
  lemma StoredAlertIsFound(storage: seq<StoredAlert>, input: AlertInput, freshId: string)
    requires forall k :: 0 <= k < |storage| ==> storage[k].id != freshId
    ensures FirstMatch(storage + [NewRecord(input, freshId)], WithId(freshId)) == Some(|storage|)
  {
    var s := storage + [NewRecord(input, freshId)];
    var r := FirstMatch(s, WithId(freshId));
    assert s[|storage|].id == freshId;
    assert forall k :: 0 <= k < |storage| ==> s[k] == storage[k];
  }

  /**
   * Acknowledging twice finds the same record again (ids are not changed by an update), so
   * the record stays acknowledged; only the acknowledger and the time are rewritten.
   */
  lemma AcknowledgeAgain(storage: seq<StoredAlert>, alertId: string, first: string, second: string, t1: string, t2: string)
    requires FirstMatch(storage, WithId(alertId)).Some?
    ensures var i := FirstMatch(storage, WithId(alertId)).value;
      var once := storage[i := Acknowledged(storage[i], first, t1)];
      && FirstMatch(once, WithId(alertId)) == Some(i)
      && once[i := Acknowledged(once[i], second, t2)][i].acknowledged
  {
    var i := FirstMatch(storage, WithId(alertId)).value;
    var once := storage[i := Acknowledged(storage[i], first, t1)];
    assert forall k :: 0 <= k < i ==> once[k] == storage[k];
    assert once[i].id == alertId;
  }
}
