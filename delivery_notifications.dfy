/** The delivery-staff notification hook and the admin escalation hook
    (`useDeliveryNotifications`, `useAdminDeliveryAlerts`). Order updates
    arrive as rows; the staff hook keeps a list of orders offered to the
    staff member, each with a two-minute acceptance countdown, and the admin
    hook keeps the orders that have waited too long for a rider. Times are
    milliseconds since the epoch and are passed in explicitly. */
module DeliveryNotifications {
  import opened Common

  /** Seconds a rider has to accept an offered order. */
  const OrderAcceptCutoffSeconds := 120
  /** Minutes assumed for delivery when the order gives none (or 0). */
  const DefaultDeliveryMinutes := 60
  /** An admin is alerted once an order has waited longer than this. */
  const AdminAlertSeconds := 180

  datatype ServiceType = IndoorEvents | CloudKitchen | Homemade

  datatype StaffType = FixedSalary | RegisteredPartner

  datatype StaffProfile = StaffProfile(
    panchayatId: Option<string>,
    assignedPanchayatIds: Option<seq<string>>,
    staffType: StaffType,
    assignedWards: seq<int>,
    isApproved: bool,
    isAvailable: bool)

  /** The columns of an order row that the hooks read. */
  datatype OrderRow = OrderRow(
    id: string,
    orderNumber: string,
    serviceType: ServiceType,
    totalAmount: int,
    cookStatus: string,
    deliveryStatus: string,
    assignedDeliveryId: Option<string>,
    deliveryAddress: Option<string>,
    deliveryInstructions: Option<string>,
    estimatedDeliveryMinutes: Option<int>,
    deliveryEta: Option<string>,
    panchayatId: Option<string>,
    wardNumber: Option<int>,
    createdAt: string,
    updatedAtMs: int,
    customerId: string)

  datatype Customer = Customer(name: string, mobileNumber: string)

  /** An order offered to the rider, with its fixed deadline and the seconds
      left at the last tick. */
  datatype PendingOrder = PendingOrder(
    id: string,
    orderNumber: string,
    serviceType: ServiceType,
    totalAmount: int,
    deliveryStatus: string,
    deliveryAddress: Option<string>,
    deliveryInstructions: Option<string>,
    estimatedDeliveryMinutes: int,
    deliveryEta: Option<string>,
    panchayatId: Option<string>,
    wardNumber: Option<int>,
    createdAt: string,
    customer: Option<Customer>,
    cutoffAtMs: int,
    secondsRemaining: int)

  function RowId(o: OrderRow): string { o.id }

  function PendingId(o: PendingOrder): string { o.id }

  // ------------------------------------------------- lists keyed by order id

  predicate HasKey<T>(s: seq<T>, key: T -> string, k: string) {
    exists i :: 0 <= i < |s| && key(s[i]) == k
  }

  predicate UniqueKeys<T>(s: seq<T>, key: T -> string) {
    forall i, j :: 0 <= i < j < |s| ==> key(s[i]) != key(s[j])
  }

  /** `prev.filter(o => o.id !== k)`. */
  function DropKey<T(!new)>(s: seq<T>, key: T -> string, k: string): (r: seq<T>)
    ensures |r| <= |s|
    ensures forall e :: e in r <==> e in s && key(e) != k
    decreases |s|
  {
    if s == [] then []
    else
      var rest := DropKey(s[..|s| - 1], key, k);
      assert forall e :: e in s <==> e in s[..|s| - 1] || e == s[|s| - 1];
      if key(s[|s| - 1]) == k then rest else rest + [s[|s| - 1]]
  }

  lemma {:induction false} DropKeyConcat<T(!new)>(a: seq<T>, b: seq<T>, key: T -> string, k: string)
    ensures DropKey(a + b, key, k) == DropKey(a, key, k) + DropKey(b, key, k)
    decreases |b|
  {
    if b != [] {
      assert (a + b)[..|a + b| - 1] == a + b[..|b| - 1];
      DropKeyConcat(a, b[..|b| - 1], key, k);
    } else {
      assert a + b == a;
    }
  }

  /** Dropping a key nobody has leaves the list as it was. */
  lemma {:induction false} DropAbsentKey<T(!new)>(s: seq<T>, key: T -> string, k: string)
    requires !HasKey(s, key, k)
    ensures DropKey(s, key, k) == s
    decreases |s|
  {
    if s != [] {
      DropAbsentKey(s[..|s| - 1], key, k);
      assert s == s[..|s| - 1] + [s[|s| - 1]];
    }
  }

  /** With unique keys, dropping the key at position `i` removes exactly that
      entry: the others stay, in their order. */
  lemma {:induction false} DropPresentKey<T(!new)>(s: seq<T>, key: T -> string, i: int)
    requires UniqueKeys(s, key) && 0 <= i < |s|
    ensures DropKey(s, key, key(s[i])) == s[..i] + s[i + 1..]
    decreases |s|
  {
    var k := key(s[i]);
    var p, x := s[..|s| - 1], s[|s| - 1];
    UniquePrefix(s, key);
    if i == |s| - 1 {
      assert !HasKey(p, key, k) by {
        forall j | 0 <= j < |p| ensures key(p[j]) != k { assert p[j] == s[j]; }
      }
      DropAbsentKey(p, key, k);
      assert DropKey(s, key, k) == p;
      assert s[..i] + s[i + 1..] == p;
    } else {
      assert p[i] == s[i];
      assert key(x) != k;
      DropPresentKey(p, key, i);
      RemoveBeforeLast(s, i);
    }
  }

  /** Removing a position before the last one and then appending the last
      entry is removing it from the whole list. */
  lemma RemoveBeforeLast<T>(s: seq<T>, i: int)
    requires 0 <= i < |s| - 1
    ensures s[..i] + s[i + 1..] == s[..|s| - 1][..i] + s[..|s| - 1][i + 1..] + [s[|s| - 1]]
  {
    var p := s[..|s| - 1];
    assert s[..i] == p[..i];
    assert s[i + 1..] == p[i + 1..] + [s[|s| - 1]];
  }

  /** A prefix of a list with unique keys has unique keys. */
  lemma UniquePrefix<T>(s: seq<T>, key: T -> string)
    requires UniqueKeys(s, key) && s != []
    ensures UniqueKeys(s[..|s| - 1], key)
  {
    var p := s[..|s| - 1];
    forall i, j | 0 <= i < j < |p| ensures key(p[i]) != key(p[j]) {
      assert p[i] == s[i] && p[j] == s[j];
    }
  }

  lemma {:induction false} DropKeyKeepsUnique<T(!new)>(s: seq<T>, key: T -> string, k: string)
    requires UniqueKeys(s, key)
    ensures UniqueKeys(DropKey(s, key, k), key)
    ensures !HasKey(DropKey(s, key, k), key, k)
    decreases |s|
  {
    if s != [] {
      var p := s[..|s| - 1];
      var x := s[|s| - 1];
      DropKeyKeepsUnique(p, key, k);
      var rest := DropKey(p, key, k);
      forall e | e in rest ensures key(e) != key(x) {
        var j :| 0 <= j < |p| && p[j] == e;
        assert s[j] == e;
      }
    }
  }

  /** `[...prev, x]` unless an entry with x's key exists (then `prev`). */
  function AddOnce<T>(s: seq<T>, key: T -> string, x: T): (r: seq<T>)
    ensures HasKey(s, key, key(x)) ==> r == s
    ensures !HasKey(s, key, key(x)) ==> r == s + [x]
    ensures UniqueKeys(s, key) ==> UniqueKeys(r, key)
    ensures HasKey(r, key, key(x))
  {
    if HasKey(s, key, key(x)) then s
    else
      assert (s + [x])[|s|] == x;
      s + [x]
  }

  // -------------------------------------------------------- who sees what

  /** `!!v` on a nullable id: set and not empty. */
  predicate IsAssigned(v: Option<string>) { v.Some? && v.value != "" }

  predicate IsDeliveryService(t: ServiceType) { t == CloudKitchen || t == Homemade }

  /** The order a rider could pick up: still pending, nobody assigned, and a
      service that is delivered. */
  predicate IsDispatchable(o: OrderRow) {
    o.deliveryStatus == "pending" && !IsAssigned(o.assignedDeliveryId) && IsDeliveryService(o.serviceType)
  }

  /** Which orders a rider is shown. */
  function OrderMatchesLocation(profile: Option<StaffProfile>, o: OrderRow): (r: bool)
    // no profile, no orders
    ensures profile.None? ==> !r
    // the order's panchayat is the rider's own (both may be missing) or one
    // of the assigned ones ...
    ensures r ==>
      (o.panchayatId == profile.value.panchayatId
        || (o.panchayatId.Some? && o.panchayatId.value in OrElse(profile.value.assignedPanchayatIds, [])))
    // ... and a registered partner with wards only sees those wards
    ensures r && profile.value.staffType == RegisteredPartner && profile.value.assignedWards != [] ==>
      o.wardNumber.Some? && o.wardNumber.value in profile.value.assignedWards
    // conversely, these conditions are enough
    ensures profile.Some? &&
      (o.panchayatId == profile.value.panchayatId
        || (o.panchayatId.Some? && o.panchayatId.value in OrElse(profile.value.assignedPanchayatIds, []))) &&
      (profile.value.staffType == RegisteredPartner && profile.value.assignedWards != [] ==>
        o.wardNumber.Some? && o.wardNumber.value in profile.value.assignedWards)
      ==> r
  {
    if profile.None? then false
    else
      var p := profile.value;
      var assignedIds := OrElse(p.assignedPanchayatIds, []);
      var matchesPanchayat := p.panchayatId == o.panchayatId || (o.panchayatId.Some? && o.panchayatId.value in assignedIds);
      if !matchesPanchayat then false
      else if p.staffType == RegisteredPartner && |p.assignedWards| > 0 then
        o.wardNumber.Some? && o.wardNumber.value in p.assignedWards
      else true
  }

  /** A registered partner given more wards sees at least the same orders. */
  lemma {:induction false} MoreWardsSeeMore(p: StaffProfile, wards: seq<int>, o: OrderRow)
    requires p.staffType == RegisteredPartner && p.assignedWards != []
    requires forall w :: w in p.assignedWards ==> w in wards
    ensures OrderMatchesLocation(Some(p), o) ==> OrderMatchesLocation(Some(p.(assignedWards := wards)), o)
  {
    var q := p.(assignedWards := wards);
    assert p.assignedWards[0] in p.assignedWards;
    if OrderMatchesLocation(Some(p), o) {
      assert o.wardNumber.Some? && o.wardNumber.value in p.assignedWards;
      var w: int := o.wardNumber.value;
      assert w in p.assignedWards;
      assert w in q.assignedWards;
    }
  }

  /** The real-time listeners are only attached for an approved rider who is
      available. */
  predicate Subscribed(profile: Option<StaffProfile>) {
    profile.Some? && profile.value.isApproved && profile.value.isAvailable
  }

  /** A ready update is offered to the rider. */
  predicate ShouldOffer(profile: Option<StaffProfile>, o: OrderRow) {
    Subscribed(profile) && o.cookStatus == "ready" && IsDispatchable(o) && OrderMatchesLocation(profile, o)
  }

  /** The pending list after one order update: nothing for a rider who is
      not subscribed; otherwise an offered order is added once and an
      assigned one withdrawn. */
  function PendingAfterUpdate(s: seq<PendingOrder>, profile: Option<StaffProfile>, o: OrderRow, customer: Option<Customer>, nowMs: int): seq<PendingOrder> {
    if !Subscribed(profile) then s
    else
      var offered := if ShouldOffer(profile, o) then AddOnce(s, PendingId, NewPendingOrder(o, customer, nowMs)) else s;
      if IsAssigned(o.assignedDeliveryId) then DropKey(offered, PendingId, o.id) else offered
  }

  /** An update only ever touches the entry of its own order: an offered
      order is pending afterwards, an assigned one is not, every other id is
      pending exactly when it was before, and ids stay unique. */
  lemma {:induction false} UpdateTouchesOnlyItsOrder(s: seq<PendingOrder>, profile: Option<StaffProfile>, o: OrderRow, customer: Option<Customer>, nowMs: int)
    requires UniqueKeys(s, PendingId)
    ensures UniqueKeys(PendingAfterUpdate(s, profile, o, customer, nowMs), PendingId)
    ensures ShouldOffer(profile, o) ==> HasKey(PendingAfterUpdate(s, profile, o, customer, nowMs), PendingId, o.id)
    ensures Subscribed(profile) && IsAssigned(o.assignedDeliveryId) ==>
      !HasKey(PendingAfterUpdate(s, profile, o, customer, nowMs), PendingId, o.id)
    ensures forall k :: k != o.id ==>
      (HasKey(PendingAfterUpdate(s, profile, o, customer, nowMs), PendingId, k) <==> HasKey(s, PendingId, k))
  {
    if Subscribed(profile) {
      var x := NewPendingOrder(o, customer, nowMs);
      var offered := if ShouldOffer(profile, o) then AddOnce(s, PendingId, x) else s;
      if ShouldOffer(profile, o) {
        AddOnceOtherKeys(s, PendingId, x);
      }
      if IsAssigned(o.assignedDeliveryId) {
        DropKeyKeepsUnique(offered, PendingId, o.id);
        DropKeyOtherKeys(offered, PendingId, o.id);
      }
    }
  }

  /** Adding an entry once leaves every other key as present as it was. */
  lemma {:induction false} AddOnceOtherKeys<T>(s: seq<T>, key: T -> string, x: T)
    ensures forall k :: k != key(x) ==> (HasKey(AddOnce(s, key, x), key, k) <==> HasKey(s, key, k))
  {
    var r := AddOnce(s, key, x);
    forall k | k != key(x) ensures HasKey(r, key, k) <==> HasKey(s, key, k) {
      if !HasKey(s, key, key(x)) {
        assert r == s + [x];
        if HasKey(r, key, k) {
          var i :| 0 <= i < |r| && key(r[i]) == k;
          assert i < |s| && r[i] == s[i];
        }
        if HasKey(s, key, k) {
          var i :| 0 <= i < |s| && key(s[i]) == k;
          assert r[i] == s[i];
        }
      }
    }
  }

  /** Dropping one key leaves every other key as present as it was. */
  lemma {:induction false} DropKeyOtherKeys<T(!new)>(s: seq<T>, key: T -> string, k0: string)
    ensures forall k :: k != k0 ==> (HasKey(DropKey(s, key, k0), key, k) <==> HasKey(s, key, k))
  {
    var r := DropKey(s, key, k0);
    forall k | k != k0 ensures HasKey(r, key, k) <==> HasKey(s, key, k) {
      if HasKey(r, key, k) {
        var i :| 0 <= i < |r| && key(r[i]) == k;
        assert r[i] in r;
        var j :| 0 <= j < |s| && s[j] == r[i];
      }
      if HasKey(s, key, k) {
        var i :| 0 <= i < |s| && key(s[i]) == k;
        assert s[i] in s;
        var j :| 0 <= j < |r| && r[j] == s[i];
      }
    }
  }

  // --------------------------------------------------------- the countdown

  /** `max(0, floor((cutoff - now) / 1000))`. */
  function SecondsLeft(cutoffAtMs: int, nowMs: int): (r: int)
    ensures r >= 0
    ensures r > 0 <==> cutoffAtMs - nowMs >= 1000
    ensures r > 0 ==> r * 1000 <= cutoffAtMs - nowMs < (r + 1) * 1000
  {
    var q := (cutoffAtMs - nowMs) / 1000;
    if q < 0 then 0 else q
  }

  /** Later clocks leave fewer seconds. */
  lemma {:induction false} SecondsLeftMonotone(cutoffAtMs: int, earlier: int, later: int)
    requires earlier <= later
    ensures SecondsLeft(cutoffAtMs, later) <= SecondsLeft(cutoffAtMs, earlier)
  {
  }

  /** The entry built for a newly offered order. */
  function NewPendingOrder(o: OrderRow, customer: Option<Customer>, nowMs: int): (p: PendingOrder)
    ensures p.id == o.id && p.customer == customer
    ensures p.cutoffAtMs == nowMs + OrderAcceptCutoffSeconds * 1000
    ensures p.secondsRemaining == OrderAcceptCutoffSeconds
    ensures p.secondsRemaining == SecondsLeft(p.cutoffAtMs, nowMs)
    ensures p.estimatedDeliveryMinutes == NumberOr(o.estimatedDeliveryMinutes, DefaultDeliveryMinutes)
    ensures p.estimatedDeliveryMinutes != 0
  {
    PendingOrder(o.id, o.orderNumber, o.serviceType, o.totalAmount, o.deliveryStatus,
      o.deliveryAddress, o.deliveryInstructions,
      NumberOr(o.estimatedDeliveryMinutes, DefaultDeliveryMinutes),
      o.deliveryEta, o.panchayatId, o.wardNumber, o.createdAt, customer,
      nowMs + OrderAcceptCutoffSeconds * 1000, OrderAcceptCutoffSeconds)
  }

  /** One entry after a tick: only the seconds left change. */
  function Recount(o: PendingOrder, nowMs: int): PendingOrder {
    o.(secondsRemaining := SecondsLeft(o.cutoffAtMs, nowMs))
  }

  /** A tick: every entry is recounted from its fixed deadline and the ones
      that reach 0 are dropped. */
  function TickAll(s: seq<PendingOrder>, nowMs: int): (r: seq<PendingOrder>)
    ensures |r| <= |s|
    ensures forall e :: e in r ==> e.secondsRemaining > 0 && e.secondsRemaining == SecondsLeft(e.cutoffAtMs, nowMs)
    decreases |s|
  {
    if s == [] then []
    else
      var rest := TickAll(s[..|s| - 1], nowMs);
      var o := Recount(s[|s| - 1], nowMs);
      if o.secondsRemaining > 0 then rest + [o] else rest
  }

  /** An entry survives a tick exactly when it still has a second left. */
  lemma {:induction false} TickAllMembers(s: seq<PendingOrder>, nowMs: int, e: PendingOrder)
    ensures e in TickAll(s, nowMs) <==>
      exists i :: 0 <= i < |s| && e == Recount(s[i], nowMs) && e.secondsRemaining > 0
    decreases |s|
  {
    if s != [] {
      var p := s[..|s| - 1];
      TickAllMembers(p, nowMs, e);
      if exists i :: 0 <= i < |p| && e == Recount(p[i], nowMs) && e.secondsRemaining > 0 {
        var i :| 0 <= i < |p| && e == Recount(p[i], nowMs) && e.secondsRemaining > 0;
        assert s[i] == p[i];
      }
      if exists i :: 0 <= i < |s| && e == Recount(s[i], nowMs) && e.secondsRemaining > 0 {
        var i :| 0 <= i < |s| && e == Recount(s[i], nowMs) && e.secondsRemaining > 0;
        if i < |s| - 1 { assert p[i] == s[i]; }
      }
    }
  }

  /** `x` and `y` are recounted from entries of `s`, `x`'s before `y`'s. */
  predicate RecountedFrom(x: PendingOrder, y: PendingOrder, s: seq<PendingOrder>, nowMs: int) {
    exists a, b :: 0 <= a < b < |s| && x == Recount(s[a], nowMs) && y == Recount(s[b], nowMs)
  }

  /** Survivors keep their relative order: two survivors come from entries in
      the same order. */
  predicate RecountedInOrder(r: seq<PendingOrder>, s: seq<PendingOrder>, nowMs: int) {
    forall i, j :: 0 <= i < j < |r| ==> RecountedFrom(r[i], r[j], s, nowMs)
  }

  /** Witnesses in a prefix are witnesses in the whole list. */
  lemma {:induction false} RecountedFromExtends(x: PendingOrder, y: PendingOrder, s: seq<PendingOrder>, nowMs: int)
    requires s != [] && RecountedFrom(x, y, s[..|s| - 1], nowMs)
    ensures RecountedFrom(x, y, s, nowMs)
  {
    var p := s[..|s| - 1];
    var a, b :| 0 <= a < b < |p| && x == Recount(p[a], nowMs) && y == Recount(p[b], nowMs);
    assert s[a] == p[a] && s[b] == p[b];
  }

  /** Order witnesses in a prefix are witnesses in the whole list. */
  lemma {:induction false} InOrderExtends(r: seq<PendingOrder>, s: seq<PendingOrder>, nowMs: int)
    requires s != [] && RecountedInOrder(r, s[..|s| - 1], nowMs)
    ensures RecountedInOrder(r, s, nowMs)
  {
    forall i, j | 0 <= i < j < |r| ensures RecountedFrom(r[i], r[j], s, nowMs) {
      RecountedFromExtends(r[i], r[j], s, nowMs);
    }
  }

  /** Appending the recounted last entry behind entries recounted from
      earlier ones keeps the order. */
  lemma {:induction false} InOrderAppend(r: seq<PendingOrder>, s: seq<PendingOrder>, nowMs: int)
    requires s != [] && RecountedInOrder(r, s, nowMs)
    requires forall i :: 0 <= i < |r| ==> exists a :: 0 <= a < |s| - 1 && r[i] == Recount(s[a], nowMs)
    ensures RecountedInOrder(r + [Recount(s[|s| - 1], nowMs)], s, nowMs)
  {
    var t := r + [Recount(s[|s| - 1], nowMs)];
    forall i, j | 0 <= i < j < |t| ensures RecountedFrom(t[i], t[j], s, nowMs) {
      if j < |r| {
        assert t[i] == r[i] && t[j] == r[j];
      } else {
        assert t[i] == r[i];
        var a :| 0 <= a < |s| - 1 && r[i] == Recount(s[a], nowMs);
        assert t[j] == Recount(s[|s| - 1], nowMs);
      }
    }
  }

  lemma {:induction false} TickAllKeepsOrder(s: seq<PendingOrder>, nowMs: int)
    ensures RecountedInOrder(TickAll(s, nowMs), s, nowMs)
    decreases |s|
  {
    if s == [] {
      assert TickAll(s, nowMs) == [];
    } else {
      var p := s[..|s| - 1];
      var rest := TickAll(p, nowMs);
      TickAllKeepsOrder(p, nowMs);
      InOrderExtends(rest, s, nowMs);
      if Recount(s[|s| - 1], nowMs).secondsRemaining > 0 {
        forall i | 0 <= i < |rest| ensures exists a :: 0 <= a < |s| - 1 && rest[i] == Recount(s[a], nowMs) {
          assert rest[i] in rest;
          TickAllMembers(p, nowMs, rest[i]);
          var a :| 0 <= a < |p| && rest[i] == Recount(p[a], nowMs) && rest[i].secondsRemaining > 0;
          assert s[a] == p[a];
        }
        InOrderAppend(rest, s, nowMs);
      }
    }
  }

  lemma {:induction false} TickAllKeepsUnique(s: seq<PendingOrder>, nowMs: int)
    requires UniqueKeys(s, PendingId)
    ensures UniqueKeys(TickAll(s, nowMs), PendingId)
  {
    var r := TickAll(s, nowMs);
    TickAllKeepsOrder(s, nowMs);
    forall i, j | 0 <= i < j < |r| ensures PendingId(r[i]) != PendingId(r[j]) {
      var ri, rj := r[i], r[j];
      assert RecountedFrom(ri, rj, s, nowMs);
      var a, b :| 0 <= a < b < |s| && ri == Recount(s[a], nowMs) && rj == Recount(s[b], nowMs);
      assert PendingId(s[a]) != PendingId(s[b]);
      assert PendingId(ri) == PendingId(s[a]) && PendingId(rj) == PendingId(s[b]);
    }
  }

  /** Ticking twice at the same time is ticking once. */
  lemma {:induction false} TickAllIdempotent(s: seq<PendingOrder>, nowMs: int)
    ensures TickAll(TickAll(s, nowMs), nowMs) == TickAll(s, nowMs)
    decreases |s|
  {
    if s != [] {
      var p := s[..|s| - 1];
      var o := Recount(s[|s| - 1], nowMs);
      TickAllIdempotent(p, nowMs);
      if o.secondsRemaining > 0 {
        var r := TickAll(p, nowMs) + [o];
        assert r[..|r| - 1] == TickAll(p, nowMs);
        assert Recount(o, nowMs) == o;
      }
    }
  }

  /** The timing facts the registry keeps about an entry, where `clock` is
      the latest time seen: seconds left are positive and no less than what
      the deadline leaves at `clock`. */
  predicate WellTimed(o: PendingOrder, clock: int) {
    o.secondsRemaining > 0 && SecondsLeft(o.cutoffAtMs, clock) <= o.secondsRemaining
  }

  /** With a clock that does not go back, a tick never raises a countdown. */
  lemma {:induction false} TickNeverIncreases(s: seq<PendingOrder>, clock: int, nowMs: int)
    requires forall i :: 0 <= i < |s| ==> WellTimed(s[i], clock)
    requires clock <= nowMs
    ensures forall e :: e in TickAll(s, nowMs) ==>
      exists i :: 0 <= i < |s| && PendingId(s[i]) == PendingId(e) && e.secondsRemaining <= s[i].secondsRemaining
  {
    forall e | e in TickAll(s, nowMs)
      ensures exists i :: 0 <= i < |s| && PendingId(s[i]) == PendingId(e) && e.secondsRemaining <= s[i].secondsRemaining
    {
      TickAllMembers(s, nowMs, e);
      var i :| 0 <= i < |s| && e == Recount(s[i], nowMs) && e.secondsRemaining > 0;
      SecondsLeftMonotone(s[i].cutoffAtMs, clock, nowMs);
    }
  }

  /** The rider's list of offered orders and the alert flag. */
  class PendingRegistry {
    var pendingOrders: seq<PendingOrder>
    var showAlert: bool
    /** The latest time any operation was given. */
    ghost var clock: int

    ghost predicate Valid()
      reads this
    {
      && UniqueKeys(pendingOrders, PendingId)
      && (pendingOrders == [] ==> !showAlert)
      && forall i :: 0 <= i < |pendingOrders| ==> WellTimed(pendingOrders[i], clock)
    }

    constructor (ghost nowMs: int)
      ensures Valid()
      ensures pendingOrders == [] && !showAlert && clock == nowMs
    {
      pendingOrders := [];
      showAlert := false;
      clock := nowMs;
    }

    /** `addPendingOrder`: offer the order unless it is already offered (its
        deadline is then kept), and raise the alert in both cases. */
    method AddPendingOrder(o: OrderRow, customer: Option<Customer>, nowMs: int)
      requires Valid()
      modifies this
      ensures Valid()
      ensures HasKey(old(pendingOrders), PendingId, o.id) ==> pendingOrders == old(pendingOrders)
      ensures !HasKey(old(pendingOrders), PendingId, o.id) ==>
        pendingOrders == old(pendingOrders) + [NewPendingOrder(o, customer, nowMs)]
      ensures showAlert
      ensures clock == Max(old(clock), nowMs)
    {
      var entry := NewPendingOrder(o, customer, nowMs);
      var next := AddOnce(pendingOrders, PendingId, entry);
      clock := Max(clock, nowMs);
      SecondsLeftMonotone(entry.cutoffAtMs, nowMs, clock);
      forall i | 0 <= i < |next| ensures WellTimed(next[i], clock) {
        if i < |old(pendingOrders)| {
          assert next[i] == old(pendingOrders)[i];
          SecondsLeftMonotone(next[i].cutoffAtMs, old(clock), clock);
        }
      }
      pendingOrders := next;
      showAlert := true;
    }

    /** `removeOrder`: drop the entry with this id; the alert closes when the
        list becomes empty. */
    method RemoveOrder(id: string)
      requires Valid()
      modifies this
      ensures Valid()
      ensures pendingOrders == DropKey(old(pendingOrders), PendingId, id)
      ensures showAlert == (old(showAlert) && pendingOrders != [])
      ensures clock == old(clock)
    {
      DropKeyKeepsUnique(pendingOrders, PendingId, id);
      var next := DropKey(pendingOrders, PendingId, id);
      forall i | 0 <= i < |next| ensures WellTimed(next[i], clock) {
        assert next[i] in next;
      }
      pendingOrders := next;
      if next == [] { showAlert := false; }
    }

    /** `dismissAlert`: hide the alert, keep the list. */
    method DismissAlert()
      requires Valid()
      modifies this
      ensures Valid()
      ensures !showAlert && pendingOrders == old(pendingOrders) && clock == old(clock)
    {
      showAlert := false;
    }

    /** The one-second interval: recount every entry from its deadline and
        drop the expired ones; the alert closes when none are left. */
    method Tick(nowMs: int)
      requires Valid()
      modifies this
      ensures Valid()
      ensures pendingOrders == TickAll(old(pendingOrders), nowMs)
      ensures showAlert == (old(showAlert) && pendingOrders != [])
      ensures clock == Max(old(clock), nowMs)
    {
      var s := pendingOrders;
      var out: seq<PendingOrder> := [];
      var i := 0;
      while i < |s|
        invariant 0 <= i <= |s|
        invariant out == TickAll(s[..i], nowMs)
      {
        assert s[..i + 1][..i] == s[..i];
        var o := Recount(s[i], nowMs);
        if o.secondsRemaining > 0 {
          out := out + [o];
        }
        i := i + 1;
      }
      assert s[..|s|] == s;
      TickAllKeepsUnique(s, nowMs);
      clock := Max(clock, nowMs);
      forall j | 0 <= j < |out| ensures WellTimed(out[j], clock) {
        assert out[j] in out;
        SecondsLeftMonotone(out[j].cutoffAtMs, nowMs, clock);
      }
      pendingOrders := out;
      if out == [] { showAlert := false; }
    }

    /** An order update from the real-time feed: offered if ready and
        dispatchable here, withdrawn once someone is assigned; nothing at all
        for a rider who is not approved and available. */
    method OnOrderUpdate(profile: Option<StaffProfile>, o: OrderRow, customer: Option<Customer>, nowMs: int)
      requires Valid()
      modifies this
      ensures Valid()
      ensures !Subscribed(profile) ==>
        pendingOrders == old(pendingOrders) && showAlert == old(showAlert)
      ensures ShouldOffer(profile, o) ==>
        pendingOrders == AddOnce(old(pendingOrders), PendingId, NewPendingOrder(o, customer, nowMs)) && showAlert
      ensures Subscribed(profile) && IsAssigned(o.assignedDeliveryId) ==>
        pendingOrders == DropKey(old(pendingOrders), PendingId, o.id) && showAlert == (old(showAlert) && pendingOrders != [])
      ensures !ShouldOffer(profile, o) && !IsAssigned(o.assignedDeliveryId) ==>
        pendingOrders == old(pendingOrders) && showAlert == old(showAlert)
      ensures pendingOrders == PendingAfterUpdate(old(pendingOrders), profile, o, customer, nowMs)
    {
      if Subscribed(profile) {
        if o.cookStatus == "ready" && IsDispatchable(o) && OrderMatchesLocation(profile, o) {
          AddPendingOrder(o, customer, nowMs);
        }
        if IsAssigned(o.assignedDeliveryId) {
          RemoveOrder(o.id);
        }
      }
    }
  }

  // -------------------------------------------------------- admin escalation

  /** An order whose cook is done but which no rider has taken. */
  predicate IsEscalationCandidate(o: OrderRow) {
    o.cookStatus == "ready" && IsDispatchable(o)
  }

  /** `(now - updated_at) / 1000 > 180`, on whole milliseconds. */
  predicate WaitedTooLong(o: OrderRow, nowMs: int) {
    nowMs - o.updatedAtMs > AdminAlertSeconds * 1000
  }

  /** The milliseconds test agrees with the source's test on seconds. */
  lemma {:induction false} WaitedTooLongInSeconds(o: OrderRow, nowMs: int)
    ensures WaitedTooLong(o, nowMs) <==> (nowMs - o.updatedAtMs) as real / 1000.0 > AdminAlertSeconds as real
  {
  }

  class AdminAlerts {
    var unacceptedOrders: seq<OrderRow>
    var showAdminAlert: bool

    ghost predicate Valid()
      reads this
    {
      UniqueKeys(unacceptedOrders, RowId)
      && forall i :: 0 <= i < |unacceptedOrders| ==> IsEscalationCandidate(unacceptedOrders[i])
    }

    constructor ()
      ensures Valid()
      ensures unacceptedOrders == [] && !showAdminAlert
    {
      unacceptedOrders := [];
      showAdminAlert := false;
    }

    /** An order update: escalate a candidate that has waited more than three
        minutes (once per id), and drop an order once it is assigned. */
    method OnOrderUpdate(o: OrderRow, nowMs: int)
      requires Valid()
      modifies this
      ensures Valid()
      ensures IsEscalationCandidate(o) && WaitedTooLong(o, nowMs) ==>
        unacceptedOrders == AddOnce(old(unacceptedOrders), RowId, o) && showAdminAlert
      ensures IsAssigned(o.assignedDeliveryId) ==>
        unacceptedOrders == DropKey(old(unacceptedOrders), RowId, o.id) && showAdminAlert == old(showAdminAlert)
      ensures !(IsEscalationCandidate(o) && WaitedTooLong(o, nowMs)) && !IsAssigned(o.assignedDeliveryId) ==>
        unacceptedOrders == old(unacceptedOrders) && showAdminAlert == old(showAdminAlert)
    {
      if IsEscalationCandidate(o) && WaitedTooLong(o, nowMs) {
        var next := AddOnce(unacceptedOrders, RowId, o);
        forall i | 0 <= i < |next| ensures IsEscalationCandidate(next[i]) {
          if i < |unacceptedOrders| { assert next[i] == unacceptedOrders[i]; }
        }
        unacceptedOrders := next;
        showAdminAlert := true;
      }
      if IsAssigned(o.assignedDeliveryId) {
        RemoveAdminAlert(o.id);
      }
    }

    /** `dismissAdminAlert`: hide the alert, keep the list. */
    method DismissAdminAlert()
      requires Valid()
      modifies this
      ensures Valid()
      ensures !showAdminAlert && unacceptedOrders == old(unacceptedOrders)
    {
      showAdminAlert := false;
    }

    /** `removeAdminAlert`: drop the order with this id; the alert flag is
        left as it is, even when the list becomes empty. */
    method RemoveAdminAlert(id: string)
      requires Valid()
      modifies this
      ensures Valid()
      ensures unacceptedOrders == DropKey(old(unacceptedOrders), RowId, id)
      ensures showAdminAlert == old(showAdminAlert)
    {
      DropKeyKeepsUnique(unacceptedOrders, RowId, id);
      var next := DropKey(unacceptedOrders, RowId, id);
      forall i | 0 <= i < |next| ensures IsEscalationCandidate(next[i]) {
        assert next[i] in next;
      }
      unacceptedOrders := next;
    }
  }
}
