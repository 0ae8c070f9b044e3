/** The admin's "unaccepted deliveries" dialog (`UnacceptedOrdersAlert`):
    the escalated orders are enriched with their panchayat's name and the
    number of riders available there, each shows how long it has waited,
    and "Assign Manually" withdraws the alert before opening the manual
    assignment page. The two look-ups are inputs: the panchayat rows the
    name query returns, and the count query as a function of a panchayat
    id. */
module UnacceptedOrdersAlert {
  import opened Common
  import DeliveryNotifications

  const MsPerMinute := 60000
  const UnknownPanchayat := "Unknown"
  const WorkAssignmentRoute := "/admin/work-assignment"

  datatype AlertOrder = AlertOrder(
    id: string,
    orderNumber: string,
    serviceType: string,
    totalAmount: int,
    deliveryAddress: Option<string>,
    panchayatId: string,
    wardNumber: int,
    createdAt: string,
    updatedAtMs: int,
    panchayatName: Option<string>)

  datatype PanchayatRow = PanchayatRow(id: string, name: string)

  // ----------------------------------------------------------- waiting time

  /** Whole minutes since the last update, rounded down. */
  function WaitingMinutes(nowMs: int, updatedAtMs: int): int {
    (nowMs - updatedAtMs) / MsPerMinute
  }

  /** `getWaitingTime`: "<m> min" below an hour, otherwise "<h>h <m>m". */
  function GetWaitingTime(nowMs: int, updatedAtMs: int): (r: string)
    ensures WaitingMinutes(nowMs, updatedAtMs) < 60 ==>
      r == IntToString(WaitingMinutes(nowMs, updatedAtMs)) + " min"
    // an hour or more: a split into hours and minutes below 60
    ensures WaitingMinutes(nowMs, updatedAtMs) >= 60 ==>
      exists h: nat, m: nat ::
        && m < 60 && h * 60 + m == WaitingMinutes(nowMs, updatedAtMs)
        && r == NatToString(h) + "h " + NatToString(m) + "m"
  {
    var minutes := WaitingMinutes(nowMs, updatedAtMs);
    if minutes < 60 then IntToString(minutes) + " min"
    else
      var hours := minutes / 60;
      assert hours * 60 + minutes % 60 == minutes;
      NatToString(hours) + "h " + NatToString(minutes % 60) + "m"
  }

  /** Reads a waiting time back as minutes. */
  function ParseWaitingTime(s: string): Option<int> {
    if |s| >= 4 && s[|s| - 4..] == " min" then ParseInt(s[..|s| - 4])
    else if |s| >= 1 && s[|s| - 1] == 'm' then ParseHoursMinutes(s[..|s| - 1])
    else None
  }

  /** Reads "<h>h <m>" as minutes. */
  function ParseHoursMinutes(body: string): Option<int> {
    var i := IndexOf(body, 'h');
    if 0 <= i && i + 1 < |body| && body[i + 1] == ' ' then
      match (ParseNat(body[..i]), ParseNat(body[i + 2..]))
      case (Some(h), Some(m)) => Some(h * 60 + m)
      case _ => None
    else None
  }

  /** A text of the first form reads back as its minutes. */
  lemma {:induction false} ParseMinutesText(minutes: int)
    ensures ParseWaitingTime(IntToString(minutes) + " min") == Some(minutes)
  {
    var s := IntToString(minutes) + " min";
    assert s[|s| - 4..] == " min";
    assert s[..|s| - 4] == IntToString(minutes);
    ParseIntOfIntToString(minutes);
  }

  /** In "<p>h <q>" with p all digits, the first 'h' follows p. */
  lemma {:induction false} HoursMarkerAt(p: string, q: string)
    requires AllDigits(p)
    ensures IndexOf(p + "h " + q, 'h') == |p|
  {
    var rest := " " + q;
    assert p + "h " + q == p + ['h'] + rest;
    IndexOfAfterDigits(p, rest, 'h');
  }

  /** The pieces of "<p>h <q>" around the marker. */
  lemma {:induction false} HoursMinutesPieces(p: string, q: string)
    ensures var body := p + "h " + q; body[|p| + 1] == ' ' && body[..|p|] == p && body[|p| + 2..] == q
  {
  }

  /** "<p>h <q>" for digit strings p and q of values h and m reads back as
      h hours and m minutes. */
  lemma {:induction false} ParseHoursMinutesDigits(p: string, q: string, h: nat, m: nat)
    requires p != [] && AllDigits(p) && DigitsValue(p) == h
    requires q != [] && AllDigits(q) && DigitsValue(q) == m
    ensures ParseHoursMinutes(p + "h " + q) == Some(h * 60 + m)
  {
    HoursMarkerAt(p, q);
    HoursMinutesPieces(p, q);
  }

  /** The hours and minutes part reads back. */
  lemma {:induction false} ParseHoursMinutesText(h: nat, m: nat)
    ensures ParseHoursMinutes(NatToString(h) + "h " + NatToString(m)) == Some(h * 60 + m)
  {
    DigitsValueOfNatToString(h);
    DigitsValueOfNatToString(m);
    ParseHoursMinutesDigits(NatToString(h), NatToString(m), h, m);
  }

  /** A text of the second form reads back as its hours and minutes. */
  lemma {:induction false} ParseHoursText(h: nat, m: nat)
    ensures ParseWaitingTime(NatToString(h) + "h " + NatToString(m) + "m") == Some(h * 60 + m)
  {
    var body := NatToString(h) + "h " + NatToString(m);
    var s := body + "m";
    assert s[|s| - 4..][3] == 'm';
    assert s[..|s| - 1] == body;
    ParseHoursMinutesText(h, m);
  }

  /** The rendered waiting time determines the whole minutes waited. */
  lemma {:induction false} ParseGetWaitingTime(nowMs: int, updatedAtMs: int)
    ensures ParseWaitingTime(GetWaitingTime(nowMs, updatedAtMs)) == Some(WaitingMinutes(nowMs, updatedAtMs))
  {
    var minutes := WaitingMinutes(nowMs, updatedAtMs);
    if minutes < 60 {
      ParseMinutesText(minutes);
    } else {
      ParseHoursText(minutes / 60, minutes % 60);
    }
  }

  // -------------------------------------------------------------- enrichment

  /** `[...new Set(ids)]`: each id once, in order of first appearance. */
  function DistinctIds(ids: seq<string>): (r: seq<string>)
    ensures NoDuplicates(r)
    ensures forall x :: x in r <==> x in ids
    decreases |ids|
  {
    if ids == [] then []
    else
      var p := ids[..|ids| - 1];
      var x := ids[|ids| - 1];
      var rest := DistinctIds(p);
      assert forall y :: y in ids <==> y in p || y == x;
      if x in rest then rest else rest + [x]
  }

  /** Ids appear in the order of their first occurrence. */
  lemma {:induction false} DistinctIdsFirstOccurrence(ids: seq<string>, k: int)
    requires 0 <= k < |ids| && ids[k] !in ids[..k]
    ensures DistinctIds(ids[..k + 1]) == DistinctIds(ids[..k]) + [ids[k]]
  {
    assert ids[..k + 1][..k] == ids[..k];
  }

  function PanchayatIds(orders: seq<AlertOrder>): (r: seq<string>)
    ensures |r| == |orders| && forall i :: 0 <= i < |orders| ==> r[i] == orders[i].panchayatId
  {
    seq(|orders|, i requires 0 <= i < |orders| => orders[i].panchayatId)
  }

  /** The ids the name query asks for: every order's panchayat, once. */
  function QueriedPanchayatIds(orders: seq<AlertOrder>): (r: seq<string>)
    ensures NoDuplicates(r)
    ensures forall i :: 0 <= i < |orders| ==> orders[i].panchayatId in r
    ensures forall x :: x in r ==> exists i :: 0 <= i < |orders| && orders[i].panchayatId == x
  {
    var ids := PanchayatIds(orders);
    assert forall i :: 0 <= i < |orders| ==> ids[i] in ids;
    DistinctIds(ids)
  }

  /** `new Map(panchayats?.map(p => [p.id, p.name]) || [])`. */
  function NameMap(rows: Option<seq<PanchayatRow>>): (m: map<string, string>)
    ensures rows.None? ==> m == map[]
  {
    var rs := OrElse(rows, []);
    MapOfPairs(seq(|rs|, i requires 0 <= i < |rs| => (rs[i].id, rs[i].name)))
  }

  /** `panchayatMap.get(id) || 'Unknown'`. */
  function PanchayatName(names: map<string, string>, id: string): (r: string)
    ensures r != ""
    ensures id in names && names[id] != "" ==> r == names[id]
    ensures id !in names || names[id] == "" ==> r == UnknownPanchayat
  {
    if id in names && names[id] != "" then names[id] else UnknownPanchayat
  }

  /** The name shown for an order is that of the last returned row with its
      panchayat id, or "Unknown" when there is none or its name is empty. */
  lemma {:induction false} NameFromLastRow(rows: seq<PanchayatRow>, id: string)
    ensures (forall j :: 0 <= j < |rows| ==> rows[j].id != id) ==>
      PanchayatName(NameMap(Some(rows)), id) == UnknownPanchayat
    ensures forall i :: 0 <= i < |rows| ==>
      (rows[i].id == id && rows[i].name != "" && (forall j :: i < j < |rows| ==> rows[j].id != id)) ==>
        PanchayatName(NameMap(Some(rows)), id) == rows[i].name
  {
    var pairs := seq(|rows|, i requires 0 <= i < |rows| => (rows[i].id, rows[i].name));
    forall i | 0 <= i < |rows| && rows[i].id == id && rows[i].name != "" &&
      (forall j :: i < j < |rows| ==> rows[j].id != id)
      ensures PanchayatName(NameMap(Some(rows)), id) == rows[i].name
    {
      forall j | i < j < |pairs| ensures pairs[j].0 != pairs[i].0 { assert rows[j].id != id; }
      MapOfPairsLastWins(pairs, i);
    }
  }

  /** The orders with their panchayat names filled in. */
  function EnrichOrders(orders: seq<AlertOrder>, rows: Option<seq<PanchayatRow>>): (r: seq<AlertOrder>)
    ensures |r| == |orders|
    ensures forall i :: 0 <= i < |orders| ==>
      r[i] == orders[i].(panchayatName := Some(PanchayatName(NameMap(rows), orders[i].panchayatId)))
  {
    var names := NameMap(rows);
    seq(|orders|, i requires 0 <= i < |orders| =>
      orders[i].(panchayatName := Some(PanchayatName(names, orders[i].panchayatId))))
  }

  /** Enrichment keeps every order, in place, and gives each a known or the
      "Unknown" name. */
  lemma {:induction false} EnrichKeepsOrders(orders: seq<AlertOrder>, rows: Option<seq<PanchayatRow>>)
    ensures |EnrichOrders(orders, rows)| == |orders|
    ensures forall i :: 0 <= i < |orders| ==>
      var e := EnrichOrders(orders, rows)[i];
      && e.id == orders[i].id && e.updatedAtMs == orders[i].updatedAtMs
      && e.panchayatName.Some? && e.panchayatName.value != ""
    ensures rows.None? ==> forall i :: 0 <= i < |orders| ==>
      EnrichOrders(orders, rows)[i].panchayatName == Some(UnknownPanchayat)
  {
  }

  // ---------------------------------------------------------- staff counts

  /** The counts record as the loop leaves it: per order id, the count for
      its panchayat, `|| 0`; a repeated id keeps its last value. */
  function StaffCountsSpec(orders: seq<AlertOrder>, countFor: string -> Option<int>): map<string, int> {
    MapOfPairs(seq(|orders|, i requires 0 <= i < |orders| =>
      (orders[i].id, NumberOr(countFor(orders[i].panchayatId), 0))))
  }

  /** The `for ... of orders` loop filling `staffCounts`. */
  method BuildStaffCounts(orders: seq<AlertOrder>, countFor: string -> Option<int>) returns (counts: map<string, int>)
    ensures counts == StaffCountsSpec(orders, countFor)
    ensures forall id :: id in counts <==> exists i :: 0 <= i < |orders| && orders[i].id == id
  {
    var pairs := seq(|orders|, i requires 0 <= i < |orders| =>
      (orders[i].id, NumberOr(countFor(orders[i].panchayatId), 0)));
    counts := map[];
    var i := 0;
    while i < |orders|
      invariant 0 <= i <= |orders|
      invariant counts == MapOfPairs(pairs[..i])
    {
      assert pairs[..i + 1][..i] == pairs[..i];
      counts := counts[orders[i].id := NumberOr(countFor(orders[i].panchayatId), 0)];
      i := i + 1;
    }
    assert pairs[..|orders|] == pairs;
    forall id ensures id in counts <==> exists i :: 0 <= i < |orders| && orders[i].id == id {
      if id in counts {
        var k :| 0 <= k < |pairs| && pairs[k].0 == id;
        assert orders[k].id == id;
      }
      if exists i :: 0 <= i < |orders| && orders[i].id == id {
        var k :| 0 <= k < |orders| && orders[k].id == id;
        assert pairs[k].0 == id;
      }
    }
  }

  /** The last order with an id decides its count. */
  lemma {:induction false} StaffCountOfLastOrder(orders: seq<AlertOrder>, countFor: string -> Option<int>, i: int)
    requires 0 <= i < |orders|
    requires forall j :: i < j < |orders| ==> orders[j].id != orders[i].id
    ensures orders[i].id in StaffCountsSpec(orders, countFor)
    ensures StaffCountsSpec(orders, countFor)[orders[i].id] == NumberOr(countFor(orders[i].panchayatId), 0)
  {
    var pairs := seq(|orders|, i requires 0 <= i < |orders| =>
      (orders[i].id, NumberOr(countFor(orders[i].panchayatId), 0)));
    MapOfPairsLastWins(pairs, i);
  }

  /** `availableStaffCounts[id] || 0`. */
  function DisplayedStaffCount(counts: map<string, int>, id: string): (n: int)
    ensures id !in counts ==> n == 0
    ensures id in counts ==> n == counts[id]
  {
    if id in counts && counts[id] != 0 then counts[id] else 0
  }

  // ------------------------------------------------------------- the dialog

  /** What the details effect leaves in `ordersWithDetails`: it returns early
      on an empty list, so the previous details stay. */
  function DetailsAfterFetch(previous: seq<AlertOrder>, orders: seq<AlertOrder>, rows: Option<seq<PanchayatRow>>): (r: seq<AlertOrder>)
    ensures orders == [] ==> r == previous
    ensures orders != [] ==> r == EnrichOrders(orders, rows)
  {
    if orders == [] then previous else EnrichOrders(orders, rows)
  }

  /** The dialog renders only with details to show. */
  predicate Rendered(details: seq<AlertOrder>) { details != [] }

  /** Withdrawing the last alert leaves the dialog showing it. */
  lemma {:induction false} StaleDetailsAfterLastRemoved(previous: seq<AlertOrder>, rows: Option<seq<PanchayatRow>>)
    requires previous != []
    ensures Rendered(DetailsAfterFetch(previous, [], rows))
    ensures DetailsAfterFetch(previous, [], rows) == previous
  {
  }

  /** The details with the empty case handled: nothing to show for no
      orders. */
  function DetailsAfterFetchCorrected(orders: seq<AlertOrder>, rows: Option<seq<PanchayatRow>>): (r: seq<AlertOrder>)
    ensures Rendered(r) <==> orders != []
    ensures |r| == |orders|
    ensures forall i :: 0 <= i < |orders| ==> r[i].id == orders[i].id
  {
    EnrichOrders(orders, rows)
  }

  /** The dialog's fetched state. */
  class DetailsPanel {
    var ordersWithDetails: seq<AlertOrder>
    var availableStaffCounts: map<string, int>

    constructor ()
      ensures ordersWithDetails == [] && availableStaffCounts == map[]
    {
      ordersWithDetails := [];
      availableStaffCounts := map[];
    }

    /** `fetchDetails`, run whenever the list of orders changes. */
    method FetchDetails(orders: seq<AlertOrder>, rows: Option<seq<PanchayatRow>>, countFor: string -> Option<int>)
      modifies this
      ensures ordersWithDetails == DetailsAfterFetch(old(ordersWithDetails), orders, rows)
      ensures orders == [] ==> availableStaffCounts == old(availableStaffCounts)
      ensures orders != [] ==> availableStaffCounts == StaffCountsSpec(orders, countFor)
    {
      if |orders| == 0 {
        return;
      }
      ordersWithDetails := EnrichOrders(orders, rows);
      availableStaffCounts := BuildStaffCounts(orders, countFor);
    }

    /** `fetchDetails` with the empty list clearing the dialog instead of
        keeping what it showed. */
    method FetchDetailsCorrected(orders: seq<AlertOrder>, rows: Option<seq<PanchayatRow>>, countFor: string -> Option<int>)
      modifies this
      ensures ordersWithDetails == DetailsAfterFetchCorrected(orders, rows)
      ensures Rendered(ordersWithDetails) <==> orders != []
      ensures availableStaffCounts == StaffCountsSpec(orders, countFor)
    {
      ordersWithDetails := DetailsAfterFetchCorrected(orders, rows);
      availableStaffCounts := BuildStaffCounts(orders, countFor);
    }
  }

  /** `handleAssignManually`: withdraw the alert (the admin hook's
      `removeAdminAlert`), then go to the manual assignment page. */
  method AssignManually(alerts: DeliveryNotifications.AdminAlerts, orderId: string) returns (route: string)
    requires alerts.Valid()
    modifies alerts
    ensures alerts.Valid()
    ensures alerts.unacceptedOrders == DeliveryNotifications.DropKey(old(alerts.unacceptedOrders), DeliveryNotifications.RowId, orderId)
    ensures alerts.showAdminAlert == old(alerts.showAdminAlert)
    ensures route == WorkAssignmentRoute
  {
    alerts.RemoveAdminAlert(orderId);
    route := WorkAssignmentRoute;
  }

  /** A card's "Dismiss" button: withdraw that order's alert (the admin
      hook's `removeAdminAlert`) and stay on the page. */
  method DismissOrder(alerts: DeliveryNotifications.AdminAlerts, orderId: string)
    requires alerts.Valid()
    modifies alerts
    ensures alerts.Valid()
    ensures alerts.unacceptedOrders == DeliveryNotifications.DropKey(old(alerts.unacceptedOrders), DeliveryNotifications.RowId, orderId)
    ensures alerts.showAdminAlert == old(alerts.showAdminAlert)
  {
    alerts.RemoveAdminAlert(orderId);
  }
}
