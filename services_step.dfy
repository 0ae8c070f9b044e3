/** The "Add Services" step of the indoor-event planner (`ServicesStep`):
    six optional services, each priced per guest or at a fixed amount, that
    the customer switches on and off; the step shows how many are on and
    what they cost together for the planned number of guests. */
module ServicesStep {
  import opened Common

  datatype PriceType = PerGuest | Fixed

  datatype Service = Service(id: string, name: string, price: int, priceType: PriceType, enabled: bool)

  /** `AVAILABLE_SERVICES`, each switched off. */
  function AvailableServices(): (r: seq<Service>)
    ensures |r| == 6
    ensures forall i :: 0 <= i < |r| ==> !r[i].enabled
  {
    [ Service("live-counter", "Live Counter", 50, PerGuest, false),
      Service("decoration", "Decoration", 5000, Fixed, false),
      Service("serving-staff", "Serving Staff", 25, PerGuest, false),
      Service("cleaning", "Cleaning Service", 2000, Fixed, false),
      Service("rental-vessels", "Rental Vessels", 15, PerGuest, false),
      Service("dj-music", "DJ / Music", 8000, Fixed, false) ]
  }

  predicate DistinctIds(services: seq<Service>) {
    forall i, j :: 0 <= i < j < |services| ==> services[i].id != services[j].id
  }

  lemma {:induction false} AvailableServicesDistinct()
    ensures DistinctIds(AvailableServices())
  {
  }

  /** The initialisation effect: an empty selection is replaced by the
      catalogue, all off; otherwise nothing is sent. */
  function InitialSelection(selected: seq<Service>): (r: Option<seq<Service>>)
    ensures selected == [] <==> r.Some?
    ensures r.Some? ==> r.value == AvailableServices()
  {
    if |selected| == 0 then Some(AvailableServices()) else None
  }

  /** `toggleService(id)`. */
  function ToggleService(services: seq<Service>, id: string): (r: seq<Service>)
    ensures |r| == |services|
    // only entries with this id flip; every other field and entry is kept
    ensures forall i :: 0 <= i < |services| ==>
      && r[i].(enabled := services[i].enabled) == services[i]
      && (r[i].enabled <==> (services[i].enabled != (services[i].id == id)))
  {
    seq(|services|, i requires 0 <= i < |services| =>
      if services[i].id == id then services[i].(enabled := !services[i].enabled) else services[i])
  }

  /** Toggling the same service twice changes nothing. */
  lemma {:induction false} ToggleTwice(services: seq<Service>, id: string)
    ensures ToggleService(ToggleService(services, id), id) == services
  {
  }

  /** Toggles of different services do not interfere. */
  lemma {:induction false} TogglesCommute(services: seq<Service>, a: string, b: string)
    ensures ToggleService(ToggleService(services, a), b) == ToggleService(ToggleService(services, b), a)
  {
  }

  /** `getServicePrice`. */
  function ServicePrice(s: Service, guestCount: int): (p: int)
    ensures s.priceType == PerGuest ==> p == s.price * guestCount
    ensures s.priceType == Fixed ==> p == s.price
  {
    if s.priceType == PerGuest then s.price * guestCount else s.price
  }

  /** `serviceTotal`: the prices of the enabled services, added up. */
  function ServiceTotal(services: seq<Service>, guestCount: int): (t: int)
    ensures (forall i :: 0 <= i < |services| ==> !services[i].enabled) ==> t == 0
    decreases |services|
  {
    if services == [] then 0
    else
      var last := services[|services| - 1];
      ServiceTotal(services[..|services| - 1], guestCount) + (if last.enabled then ServicePrice(last, guestCount) else 0)
  }

  /** `enabledCount`. */
  function EnabledCount(services: seq<Service>): (n: nat)
    ensures n <= |services|
    ensures n == 0 <==> forall i :: 0 <= i < |services| ==> !services[i].enabled
    decreases |services|
  {
    if services == [] then 0
    else
      var p := services[..|services| - 1];
      assert forall i :: 0 <= i < |p| ==> p[i] == services[i];
      EnabledCount(p) + (if services[|services| - 1].enabled then 1 else 0)
  }

  /** The summary card is shown when at least one service is on. */
  predicate ShowSummary(services: seq<Service>) { EnabledCount(services) > 0 }

  /** Without the summary, the total is 0. */
  lemma {:induction false} NoSummaryMeansNoCost(services: seq<Service>, guestCount: int)
    ensures !ShowSummary(services) ==> ServiceTotal(services, guestCount) == 0
    ensures ShowSummary(services) <==> exists i :: 0 <= i < |services| && services[i].enabled
  {
  }

  /** Toggling the one service with an id adds its price when it is switched
      on, subtracts it when switched off, and moves the count by one. */
  lemma {:induction false} ToggleChangesTotal(services: seq<Service>, k: int, guestCount: int)
    requires 0 <= k < |services|
    requires forall j :: 0 <= j < |services| && j != k ==> services[j].id != services[k].id
    ensures ServiceTotal(ToggleService(services, services[k].id), guestCount) ==
      ServiceTotal(services, guestCount) +
        (if services[k].enabled then -ServicePrice(services[k], guestCount) else ServicePrice(services[k], guestCount))
    ensures EnabledCount(ToggleService(services, services[k].id)) ==
      EnabledCount(services) + (if services[k].enabled then -1 else 1)
    decreases |services|
  {
    var id := services[k].id;
    var r := ToggleService(services, id);
    var p := services[..|services| - 1];
    assert r[..|r| - 1] == ToggleService(p, id);
    if k == |services| - 1 {
      assert forall j :: 0 <= j < |p| ==> p[j].id != id;
      assert ToggleService(p, id) == p;
    } else {
      assert p[k] == services[k];
      ToggleChangesTotal(p, k, guestCount);
    }
  }

  /** Everything on for `g` guests: 50 + 25 + 15 per guest plus 5000, 2000
      and 8000 fixed. */
  lemma {:induction false} EverythingOn(g: int)
    ensures ServiceTotal(seq(6, i requires 0 <= i < 6 => AvailableServices()[i].(enabled := true)), g) == 90 * g + 15000
  {
    var all := seq(6, i requires 0 <= i < 6 => AvailableServices()[i].(enabled := true));
    assert all[..1][..0] == [];
    assert ServiceTotal(all[..1], g) == 50 * g;
    assert all[..2][..1] == all[..1];
    assert ServiceTotal(all[..2], g) == 50 * g + 5000;
    assert all[..3][..2] == all[..2];
    assert ServiceTotal(all[..3], g) == 75 * g + 5000;
    assert all[..4][..3] == all[..3];
    assert ServiceTotal(all[..4], g) == 75 * g + 7000;
    assert all[..5][..4] == all[..4];
    assert ServiceTotal(all[..5], g) == 90 * g + 7000;
    assert all[..5] == all[..|all| - 1];
  }
}
