/** The admin page for indoor-event bookings (`IndoorEventsOrders`): the
    booking list and its search, the status buttons of the detail dialog,
    the cook-selection dialog, and the assignment of cooks to a booking.
    The two database tables the page writes (`order_assigned_cooks` and the
    orders' status column) are the fields of `EventBoard`. */
module IndoorEventsOrders {
  import opened Common

  datatype OrderStatus = Pending | Confirmed | Preparing | Ready | OutForDelivery | Delivered | Cancelled

  /** An entry of a booking's `assigned_cooks`. */
  datatype CookRef = CookRef(cookId: string, cookStatus: string)

  /** A row of `order_assigned_cooks`. */
  datatype Assignment = Assignment(orderId: string, cookId: string, cookStatus: string)

  datatype Profile = Profile(name: Option<string>, mobileNumber: Option<string>)

  datatype EventOrder = EventOrder(
    id: string,
    orderNumber: string,
    status: OrderStatus,
    profile: Option<Profile>,
    assignedCooks: seq<CookRef>)

  const PendingCookStatus := "pending"

  // ------------------------------------------------------- cook selection

  /** `toggleCookSelection`: an unselected cook is appended, a selected one
      is taken out. */
  function ToggleCookSelection(prev: seq<string>, cookId: string): (r: seq<string>)
    ensures cookId in r <==> cookId !in prev
    ensures forall c :: c != cookId ==> (c in r <==> c in prev)
    ensures cookId !in prev ==> r == prev + [cookId]
    ensures cookId in prev ==> |r| < |prev|
  {
    if cookId in prev then
      var r := RemoveAll(prev, cookId);
      assert |r| < |prev| by {
        var i :| 0 <= i < |prev| && prev[i] == cookId;
        RemoveAllConcat(prev[..i], prev[i..], cookId);
        assert prev[i..] == [cookId] + prev[i + 1..];
        RemoveAllConcat([cookId], prev[i + 1..], cookId);
        assert prev[..i] + prev[i..] == prev;
        assert RemoveAll([cookId], cookId) == [] by {
          assert [cookId][..0] == [];
        }
      }
      r
    else prev + [cookId]
  }

  /** Taking a selected cook out leaves the others where they were. */
  lemma {:induction false} ToggleRemovesInPlace(before: seq<string>, cookId: string, after: seq<string>)
    requires cookId !in before && cookId !in after
    ensures ToggleCookSelection(before + [cookId] + after, cookId) == before + after
  {
    RemoveAllConcat(before + [cookId], after, cookId);
    RemoveAllConcat(before, [cookId], cookId);
    assert RemoveAll([cookId], cookId) == [] by {
      assert [cookId][..0] == [];
    }
    RemoveAbsent(before, cookId);
    RemoveAbsent(after, cookId);
  }

  /** Selecting a cook and deselecting it again restores the selection. */
  lemma {:induction false} ToggleCookTwice(prev: seq<string>, cookId: string)
    requires cookId !in prev
    ensures ToggleCookSelection(ToggleCookSelection(prev, cookId), cookId) == prev
  {
    ToggleRemovesInPlace(prev, cookId, []);
    assert prev + [cookId] + [] == prev + [cookId];
    assert prev + [] == prev;
  }

  /** Removal keeps a list free of duplicates. */
  lemma {:induction false} RemoveAllKeepsDistinct(s: seq<string>, x: string)
    requires NoDuplicates(s)
    ensures NoDuplicates(RemoveAll(s, x))
    decreases |s|
  {
    if s != [] {
      var p := s[..|s| - 1];
      RemoveAllKeepsDistinct(p, x);
      assert s[|s| - 1] !in p;
    }
  }

  /** The selection never holds a cook twice. */
  lemma {:induction false} ToggleKeepsDistinct(prev: seq<string>, cookId: string)
    requires NoDuplicates(prev)
    ensures NoDuplicates(ToggleCookSelection(prev, cookId))
  {
    if cookId in prev {
      RemoveAllKeepsDistinct(prev, cookId);
    }
  }

  // --------------------------------------------------------------- search

  /** One booking against a non-empty search text: the lower-cased query in
      the lower-cased order number or customer name, or in the mobile
      number as stored. */
  predicate MatchesSearch(o: EventOrder, search: string) {
    var q := ToLower(search);
    || Contains(ToLower(o.orderNumber), q)
    || (o.profile.Some? && o.profile.value.name.Some? && Contains(ToLower(o.profile.value.name.value), q))
    || (o.profile.Some? && o.profile.value.mobileNumber.Some? && Contains(o.profile.value.mobileNumber.value, q))
  }

  /** `filteredOrders`. */
  function FilteredOrders(orders: seq<EventOrder>, search: string): (r: seq<EventOrder>)
    ensures |r| <= |orders|
    ensures search == "" ==> r == orders
    ensures forall o :: o in r <==> o in orders && (search == "" || MatchesSearch(o, search))
    decreases |orders|
  {
    if orders == [] then []
    else
      var p := orders[..|orders| - 1];
      var last := orders[|orders| - 1];
      var rest := FilteredOrders(p, search);
      assert orders == p + [last];
      assert forall o :: o in orders <==> o in p || o == last;
      if search == "" || MatchesSearch(last, search) then rest + [last] else rest
  }

  /** The search keeps the list's order: filtering a concatenation filters
      each part. */
  lemma {:induction false} FilteredOrdersConcat(a: seq<EventOrder>, b: seq<EventOrder>, search: string)
    ensures FilteredOrders(a + b, search) == FilteredOrders(a, search) + FilteredOrders(b, search)
    decreases |b|
  {
    if b == [] {
      assert a + b == a;
    } else {
      assert (a + b)[..|a + b| - 1] == a + b[..|b| - 1];
      FilteredOrdersConcat(a, b[..|b| - 1], search);
    }
  }

  /** Searching twice with the same text changes nothing more. */
  lemma {:induction false} FilteredOrdersIdempotent(orders: seq<EventOrder>, search: string)
    ensures FilteredOrders(FilteredOrders(orders, search), search) == FilteredOrders(orders, search)
    decreases |orders|
  {
    if orders != [] {
      var p := orders[..|orders| - 1];
      var last := orders[|orders| - 1];
      FilteredOrdersIdempotent(p, search);
      var rest := FilteredOrders(p, search);
      if search == "" || MatchesSearch(last, search) {
        FilteredOrdersConcat(rest, [last], search);
        assert [last][..0] == [];
      }
    }
  }

  /** A query of digits finds every booking whose mobile number holds it
      (lower-casing leaves digits alone). */
  lemma {:induction false} DigitQueryFindsMobile(o: EventOrder, search: string)
    requires AllDigits(search)
    requires o.profile.Some? && o.profile.value.mobileNumber.Some?
    requires Contains(o.profile.value.mobileNumber.value, search)
    ensures MatchesSearch(o, search)
  {
    assert ToLower(search) == search;
  }

  // ------------------------------------------------------------- grouping

  /** The cooks of one booking in `order_assigned_cooks`, in row order. */
  function CookRefsOf(assignments: seq<Assignment>, orderId: string): (r: seq<CookRef>)
    ensures |r| <= |assignments|
    ensures r == [] <==> forall i :: 0 <= i < |assignments| ==> assignments[i].orderId != orderId
    decreases |assignments|
  {
    if assignments == [] then []
    else
      var p := assignments[..|assignments| - 1];
      var a := assignments[|assignments| - 1];
      var rest := CookRefsOf(p, orderId);
      assert forall i :: 0 <= i < |p| ==> p[i] == assignments[i];
      if a.orderId == orderId then rest + [CookRef(a.cookId, a.cookStatus)] else rest
  }

  /** The map that the `forEach` of the fetch builds, one row at a time. */
  function Grouped(assignments: seq<Assignment>): (m: map<string, seq<CookRef>>)
    ensures forall k :: k in m <==> exists i :: 0 <= i < |assignments| && assignments[i].orderId == k
    decreases |assignments|
  {
    if assignments == [] then map[]
    else
      var p := assignments[..|assignments| - 1];
      var a := assignments[|assignments| - 1];
      var m := Grouped(p);
      assert forall i :: 0 <= i < |p| ==> p[i] == assignments[i];
      var current := if a.orderId in m then m[a.orderId] else [];
      m[a.orderId := current + [CookRef(a.cookId, a.cookStatus)]]
  }

  /** `assignedCooksMap.get(order.id) || []`. */
  function AssignedCooksOf(m: map<string, seq<CookRef>>, orderId: string): (r: seq<CookRef>)
    ensures orderId !in m ==> r == []
    ensures orderId in m ==> r == m[orderId]
  {
    if orderId in m then m[orderId] else []
  }

  /** The grouping loop of the fetch. */
  method GroupAssignments(assignments: seq<Assignment>) returns (m: map<string, seq<CookRef>>)
    ensures m == Grouped(assignments)
  {
    m := map[];
    var i := 0;
    while i < |assignments|
      invariant 0 <= i <= |assignments|
      invariant m == Grouped(assignments[..i])
    {
      var a := assignments[i];
      if a.orderId !in m {
        m := m[a.orderId := []];
      }
      m := m[a.orderId := m[a.orderId] + [CookRef(a.cookId, a.cookStatus)]];
      assert assignments[..i + 1][..i] == assignments[..i];
      i := i + 1;
    }
    assert assignments[..i] == assignments;
  }

  /** Every booking gets exactly its own assignment rows, in row order, and
      a booking without rows gets the empty list. */
  lemma {:induction false} GroupingIsPerOrder(assignments: seq<Assignment>, orderId: string)
    ensures AssignedCooksOf(Grouped(assignments), orderId) == CookRefsOf(assignments, orderId)
    decreases |assignments|
  {
    if assignments != [] {
      GroupingIsPerOrder(assignments[..|assignments| - 1], orderId);
    }
  }

  /** The bookings as the fetch returns them, each with its cooks. */
  function WithAssignedCooks(orders: seq<EventOrder>, m: map<string, seq<CookRef>>): (r: seq<EventOrder>)
    ensures |r| == |orders|
    ensures forall i :: 0 <= i < |orders| ==> r[i].(assignedCooks := orders[i].assignedCooks) == orders[i]
  {
    seq(|orders|, i requires 0 <= i < |orders| => orders[i].(assignedCooks := AssignedCooksOf(m, orders[i].id)))
  }

  /** After the fetch, each booking carries the rows of its own id. */
  lemma {:induction false} FetchedOrdersCarryTheirCooks(orders: seq<EventOrder>, assignments: seq<Assignment>)
    ensures forall i :: 0 <= i < |orders| ==>
      WithAssignedCooks(orders, Grouped(assignments))[i].assignedCooks == CookRefsOf(assignments, orders[i].id)
  {
    forall i | 0 <= i < |orders|
      ensures WithAssignedCooks(orders, Grouped(assignments))[i].assignedCooks == CookRefsOf(assignments, orders[i].id)
    {
      GroupingIsPerOrder(assignments, orders[i].id);
    }
  }

  /** The cook ids of a booking's assignments, for the pre-selection. */
  function CookIds(refs: seq<CookRef>): (ids: seq<string>)
    ensures |ids| == |refs|
    ensures forall i :: 0 <= i < |refs| ==> ids[i] == refs[i].cookId
  {
    seq(|refs|, i requires 0 <= i < |refs| => refs[i].cookId)
  }

  // ----------------------------------------------------------- assignment

  /** The rows left after `delete().eq('order_id', orderId)`. */
  function DropOrder(assignments: seq<Assignment>, orderId: string): (r: seq<Assignment>)
    ensures forall a :: a in r <==> a in assignments && a.orderId != orderId
    decreases |assignments|
  {
    if assignments == [] then []
    else
      var p := assignments[..|assignments| - 1];
      var a := assignments[|assignments| - 1];
      assert forall x :: x in assignments <==> x in p || x == a;
      if a.orderId == orderId then DropOrder(p, orderId) else DropOrder(p, orderId) + [a]
  }

  /** The rows inserted: one `pending` row per selected cook. */
  function PendingRows(orderId: string, cookIds: seq<string>): (r: seq<Assignment>)
    ensures |r| == |cookIds|
    ensures forall i :: 0 <= i < |cookIds| ==> r[i] == Assignment(orderId, cookIds[i], PendingCookStatus)
  {
    seq(|cookIds|, i requires 0 <= i < |cookIds| => Assignment(orderId, cookIds[i], PendingCookStatus))
  }

  /** The table after a successful assignment. */
  function AfterAssign(assignments: seq<Assignment>, orderId: string, cookIds: seq<string>): seq<Assignment> {
    DropOrder(assignments, orderId) + PendingRows(orderId, cookIds)
  }

  lemma {:induction false} CookRefsOfConcat(a: seq<Assignment>, b: seq<Assignment>, orderId: string)
    ensures CookRefsOf(a + b, orderId) == CookRefsOf(a, orderId) + CookRefsOf(b, orderId)
    decreases |b|
  {
    if b == [] {
      assert a + b == a;
    } else {
      assert (a + b)[..|a + b| - 1] == a + b[..|b| - 1];
      CookRefsOfConcat(a, b[..|b| - 1], orderId);
    }
  }

  /** Deleting a booking's rows keeps the rows of every other booking. */
  lemma {:induction false} DropOrderCookRefs(assignments: seq<Assignment>, orderId: string, k: string)
    ensures CookRefsOf(DropOrder(assignments, orderId), k) == (if k == orderId then [] else CookRefsOf(assignments, k))
    decreases |assignments|
  {
    if assignments != [] {
      var p := assignments[..|assignments| - 1];
      var a := assignments[|assignments| - 1];
      DropOrderCookRefs(p, orderId, k);
      if a.orderId != orderId {
        CookRefsOfConcat(DropOrder(p, orderId), [a], k);
        assert [a][..0] == [];
      }
    }
  }

  lemma {:induction false} PendingRowsCookRefs(orderId: string, cookIds: seq<string>, k: string)
    ensures CookRefsOf(PendingRows(orderId, cookIds), k) ==
      (if k == orderId then seq(|cookIds|, i requires 0 <= i < |cookIds| => CookRef(cookIds[i], PendingCookStatus)) else [])
    decreases |cookIds|
  {
    if cookIds != [] {
      var p := cookIds[..|cookIds| - 1];
      PendingRowsCookRefs(orderId, p, k);
      assert PendingRows(orderId, cookIds)[..|cookIds| - 1] == PendingRows(orderId, p);
    }
  }

  /** Assignment replaces the booking's cooks by the selected ones, each
      `pending` and in selection order, and leaves every other booking's
      cooks alone. */
  lemma {:induction false} AssignReplacesCooks(assignments: seq<Assignment>, orderId: string, cookIds: seq<string>, k: string)
    ensures CookRefsOf(AfterAssign(assignments, orderId, cookIds), orderId) ==
      seq(|cookIds|, i requires 0 <= i < |cookIds| => CookRef(cookIds[i], PendingCookStatus))
    ensures k != orderId ==> CookRefsOf(AfterAssign(assignments, orderId, cookIds), k) == CookRefsOf(assignments, k)
  {
    var kept, added := DropOrder(assignments, orderId), PendingRows(orderId, cookIds);
    var refs := seq(|cookIds|, i requires 0 <= i < |cookIds| => CookRef(cookIds[i], PendingCookStatus));
    CookRefsOfConcat(kept, added, orderId);
    DropOrderCookRefs(assignments, orderId, orderId);
    PendingRowsCookRefs(orderId, cookIds, orderId);
    assert CookRefsOf(kept + added, orderId) == [] + refs;
    if k != orderId {
      CookRefsOfConcat(kept, added, k);
      DropOrderCookRefs(assignments, orderId, k);
      PendingRowsCookRefs(orderId, cookIds, k);
      assert CookRefsOf(kept + added, k) == CookRefsOf(assignments, k) + [];
    }
  }

  /** Reopening the cook dialog after an assignment pre-selects exactly the
      cooks that were assigned. */
  lemma {:induction false} ReopenPreselectsAssigned(assignments: seq<Assignment>, orderId: string, cookIds: seq<string>)
    ensures CookIds(AssignedCooksOf(Grouped(AfterAssign(assignments, orderId, cookIds)), orderId)) == cookIds
  {
    GroupingIsPerOrder(AfterAssign(assignments, orderId, cookIds), orderId);
    AssignReplacesCooks(assignments, orderId, cookIds, orderId);
  }

  // --------------------------------------------------------- status actions

  datatype StatusAction = Confirm | AssignCooks | MarkDelivered | Cancel

  /** The buttons of the detail dialog for a booking in `status`. */
  function OfferedActions(status: OrderStatus): (r: set<StatusAction>)
    ensures Confirm in r <==> status == Pending
    ensures AssignCooks in r <==> status == Confirmed
    ensures MarkDelivered in r <==> status == Preparing
    ensures Cancel in r <==> status != Cancelled && status != Delivered
  {
    (if status == Pending then {Confirm} else {})
    + (if status == Confirmed then {AssignCooks} else {})
    + (if status == Preparing then {MarkDelivered} else {})
    + (if status != Cancelled && status != Delivered then {Cancel} else {})
  }

  /** The status each button leads to once its write succeeds. */
  function ActionTarget(a: StatusAction): OrderStatus {
    match a
    case Confirm => Confirmed
    case AssignCooks => Preparing
    case MarkDelivered => Delivered
    case Cancel => Cancelled
  }

  /** A booking's progress along pending, confirmed, preparing, ready, out
      for delivery, delivered, with cancelled last. */
  function Rank(s: OrderStatus): nat {
    match s
    case Pending => 0
    case Confirmed => 1
    case Preparing => 2
    case Ready => 3
    case OutForDelivery => 4
    case Delivered => 5
    case Cancelled => 6
  }

  /** Every offered button moves a booking strictly forward, so the buttons
      cannot lead round in a circle, and delivered and cancelled bookings
      offer none. */
  lemma {:induction false} ActionsMoveForward(status: OrderStatus)
    ensures forall a :: a in OfferedActions(status) ==> Rank(ActionTarget(a)) > Rank(status)
    ensures OfferedActions(status) == {} <==> status == Delivered || status == Cancelled
  {
    if status != Delivered && status != Cancelled {
      assert Cancel in OfferedActions(status);
    }
  }

  // ---------------------------------------------------------------- state

  /** The two tables the page writes. */
  class EventBoard {
    var assignments: seq<Assignment>
    var statuses: map<string, OrderStatus>

    constructor (assignments0: seq<Assignment>, statuses0: map<string, OrderStatus>)
      ensures assignments == assignments0 && statuses == statuses0
    {
      assignments := assignments0;
      statuses := statuses0;
    }

    /** `assignCooksMutation`: delete, insert when there are cooks, then set
        the status. `insertOk` and `updateOk` stand for the store's answers;
        a failing step ends the mutation with the earlier steps done. */
    method AssignCooks(orderId: string, cookIds: seq<string>, insertOk: bool, updateOk: bool) returns (ok: bool)
      modifies this
      ensures ok <==> (insertOk || cookIds == []) && updateOk
      ensures assignments == if insertOk || cookIds == [] then AfterAssign(old(assignments), orderId, cookIds)
                             else DropOrder(old(assignments), orderId)
      ensures statuses == if ok && orderId in old(statuses) then old(statuses)[orderId := Preparing] else old(statuses)
    {
      assignments := DropOrder(assignments, orderId);
      if |cookIds| > 0 {
        if !insertOk {
          return false;
        }
        assignments := assignments + PendingRows(orderId, cookIds);
      } else {
        assert PendingRows(orderId, cookIds) == [];
        assert assignments + [] == assignments;
      }
      if !updateOk {
        return false;
      }
      if orderId in statuses {
        statuses := statuses[orderId := Preparing];
      }
      ok := true;
    }

    /** `handleUpdateStatus`'s write; an update of an unknown id changes no row. */
    method UpdateStatus(orderId: string, newStatus: OrderStatus, ok: bool)
      modifies this
      ensures statuses == if ok && orderId in old(statuses) then old(statuses)[orderId := newStatus] else old(statuses)
      ensures assignments == old(assignments)
    {
      if ok && orderId in statuses {
        statuses := statuses[orderId := newStatus];
      }
    }
  }

  datatype AssignOutcome = Refused | Assigned | Failed

  /** The dialog state of the page. */
  class OrdersPage {
    var selectedOrder: Option<EventOrder>
    var cookSelectionOpen: bool
    var selectedCooks: seq<string>

    constructor ()
      ensures selectedOrder.None? && !cookSelectionOpen && selectedCooks == []
    {
      selectedOrder := None;
      cookSelectionOpen := false;
      selectedCooks := [];
    }

    /** `openCookSelection`: the booking's current cooks are pre-selected. */
    method OpenCookSelection(order: EventOrder)
      modifies this
      ensures selectedOrder == Some(order) && cookSelectionOpen
      ensures selectedCooks == CookIds(order.assignedCooks)
    {
      selectedOrder := Some(order);
      selectedCooks := CookIds(order.assignedCooks);
      cookSelectionOpen := true;
    }

    method ToggleCook(cookId: string)
      modifies this
      ensures selectedCooks == ToggleCookSelection(old(selectedCooks), cookId)
      ensures selectedOrder == old(selectedOrder) && cookSelectionOpen == old(cookSelectionOpen)
    {
      selectedCooks := ToggleCookSelection(selectedCooks, cookId);
    }

    /** `handleAssignCooksAndPrepare` with the mutation's success handler: no
        booking or no cook refuses; success closes the dialog and clears
        the selection; a failed write leaves the dialog as it was. */
    method HandleAssignCooksAndPrepare(board: EventBoard, insertOk: bool, updateOk: bool) returns (outcome: AssignOutcome)
      modifies this, board
      ensures outcome == Refused <==> old(selectedOrder).None? || old(selectedCooks) == []
      ensures outcome == Refused ==>
        && board.assignments == old(board.assignments) && board.statuses == old(board.statuses)
        && selectedOrder == old(selectedOrder) && selectedCooks == old(selectedCooks)
        && cookSelectionOpen == old(cookSelectionOpen)
      ensures outcome != Refused ==>
        var id := old(selectedOrder).value.id;
        && (outcome == Assigned <==> insertOk && updateOk)
        && board.assignments == (if insertOk then AfterAssign(old(board.assignments), id, old(selectedCooks))
                                 else DropOrder(old(board.assignments), id))
        && board.statuses == (if outcome == Assigned && id in old(board.statuses)
                              then old(board.statuses)[id := Preparing] else old(board.statuses))
      ensures outcome == Assigned ==> selectedOrder.None? && selectedCooks == [] && !cookSelectionOpen
      ensures outcome == Failed ==>
        selectedOrder == old(selectedOrder) && selectedCooks == old(selectedCooks) && cookSelectionOpen == old(cookSelectionOpen)
    {
      if selectedOrder.None? || selectedCooks == [] {
        return Refused;
      }
      var ok := board.AssignCooks(selectedOrder.value.id, selectedCooks, insertOk, updateOk);
      if ok {
        cookSelectionOpen := false;
        selectedCooks := [];
        selectedOrder := None;
        outcome := Assigned;
      } else {
        outcome := Failed;
      }
    }

    /** `handleUpdateStatus`: a successful write closes the detail dialog. */
    method HandleUpdateStatus(board: EventBoard, orderId: string, newStatus: OrderStatus, ok: bool)
      modifies this, board
      ensures board.statuses == if ok && orderId in old(board.statuses) then old(board.statuses)[orderId := newStatus] else old(board.statuses)
      ensures board.assignments == old(board.assignments)
      ensures selectedOrder == (if ok then None else old(selectedOrder))
      ensures selectedCooks == old(selectedCooks) && cookSelectionOpen == old(cookSelectionOpen)
    {
      board.UpdateStatus(orderId, newStatus, ok);
      if ok {
        selectedOrder := None;
      }
    }
  }
}
