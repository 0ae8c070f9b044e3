/** The customer's location selection (`LocationProvider`): the list of
    active panchayats, the selected panchayat and ward, and their copies in
    the browser's key-value storage. The fetch, each effect and each
    setter is a method; a render cycle is the sequence of effects React
    runs, written out in the scenario methods at the end. */
module LocationContext {
  import opened Common

  const PanchayatKey := "selectedPanchayatId"
  const WardKey := "selectedWardNumber"

  datatype Panchayat = Panchayat(id: string, name: string, wardCount: nat)

  /** `getWardsForPanchayat`: the ward numbers 1 to `wardCount`. */
  function GetWardsForPanchayat(p: Panchayat): (wards: seq<int>)
    ensures |wards| == p.wardCount
    ensures forall i :: 0 <= i < |wards| ==> wards[i] == i + 1
  {
    seq(p.wardCount, i requires 0 <= i < p.wardCount => i + 1)
  }

  /** The ward list holds exactly the numbers from 1 to the ward count, each
      once and in increasing order. */
  lemma {:induction false} WardsAreOneToCount(p: Panchayat)
    ensures forall w :: w in GetWardsForPanchayat(p) <==> 1 <= w <= p.wardCount
    ensures forall i, j :: 0 <= i < j < p.wardCount ==> GetWardsForPanchayat(p)[i] < GetWardsForPanchayat(p)[j]
  {
    var wards := GetWardsForPanchayat(p);
    forall w | 1 <= w <= p.wardCount ensures w in wards {
      assert wards[w - 1] == w;
    }
  }

  /** The ward kept by `handleSetSelectedPanchayat`: cleared only when a
      panchayat is chosen whose ward count is below the current ward. */
  function WardAfterSelect(ward: Option<int>, p: Option<Panchayat>): (r: Option<int>)
    ensures r.None? <==> ward.None? || (p.Some? && ward.value > p.value.wardCount)
    ensures r.Some? ==> r == ward
  {
    if p.Some? && ward.Some? && ward.value > p.value.wardCount then None else ward
  }

  /** After choosing a panchayat, a ward that was a valid ward number is
      either cleared or one of the new panchayat's wards. */
  lemma {:induction false} SelectKeepsWardInRange(ward: Option<int>, p: Panchayat)
    requires ward.Some? ==> ward.value >= 1
    ensures WardAfterSelect(ward, Some(p)).Some? ==> WardAfterSelect(ward, Some(p)).value in GetWardsForPanchayat(p)
  {
    WardsAreOneToCount(p);
  }

  /** `panchayats.find(p => p.id === id)`. */
  function FindById(ps: seq<Panchayat>, id: string): (r: Option<Panchayat>)
    ensures r.Some? ==> r.value in ps && r.value.id == id
    ensures r.None? <==> forall i :: 0 <= i < |ps| ==> ps[i].id != id
    decreases |ps|
  {
    if ps == [] then None
    else if ps[0].id == id then Some(ps[0])
    else
      var r := FindById(ps[1..], id);
      assert r.None? ==> forall i :: 0 <= i < |ps| ==> ps[i].id != id by {
        if r.None? {
          forall i | 0 <= i < |ps| ensures ps[i].id != id {
            if i > 0 { assert ps[i] == ps[1..][i - 1]; }
          }
        }
      }
      r
  }

  /** The panchayat found is the first one with that id. */
  lemma {:induction false} FindByIdFirst(ps: seq<Panchayat>, id: string, k: int)
    requires 0 <= k < |ps| && ps[k].id == id
    requires forall j :: 0 <= j < k ==> ps[j].id != id
    ensures FindById(ps, id) == Some(ps[k])
    decreases |ps|
  {
    if k > 0 {
      FindByIdFirst(ps[1..], id, k - 1);
    }
  }

  /** `localStorage.getItem(key)`, with the empty string read as absent (the
      source tests the value's truthiness). */
  function Saved(storage: map<string, string>, key: string): (r: Option<string>)
    ensures r.Some? <==> key in storage && storage[key] != ""
    ensures r.Some? ==> r.value == storage[key]
  {
    if key in storage && storage[key] != "" then Some(storage[key]) else None
  }

  class LocationProvider {
    var panchayats: seq<Panchayat>
    var selectedPanchayat: Option<Panchayat>
    var selectedWardNumber: Option<int>
    var isLoading: bool
    /** The browser's key-value storage. */
    var storage: map<string, string>

    /** The first render: nothing loaded or selected yet. */
    constructor (initialStorage: map<string, string>)
      ensures panchayats == [] && selectedPanchayat.None? && selectedWardNumber.None?
      ensures isLoading && storage == initialStorage
    {
      panchayats := [];
      selectedPanchayat := None;
      selectedWardNumber := None;
      isLoading := true;
      storage := initialStorage;
    }

    /** The end of `fetchPanchayats`: the rows when the query returned any,
        and loading is over either way. */
    method FinishFetch(data: Option<seq<Panchayat>>)
      modifies this
      ensures panchayats == (if data.Some? then data.value else old(panchayats))
      ensures !isLoading
      ensures selectedPanchayat == old(selectedPanchayat) && selectedWardNumber == old(selectedWardNumber)
      ensures storage == old(storage)
    {
      if data.Some? {
        panchayats := data.value;
      }
      isLoading := false;
    }

    /** The restore effect: a saved panchayat id is taken only when it names
        a loaded panchayat; a saved ward is taken when it parses. */
    method RestoreSaved()
      modifies this
      ensures
        var id := Saved(old(storage), PanchayatKey);
        var found := if id.Some? && |old(panchayats)| > 0 then FindById(old(panchayats), id.value) else None;
        selectedPanchayat == (if found.Some? then found else old(selectedPanchayat))
      ensures
        var w := Saved(old(storage), WardKey);
        var parsed := if w.Some? then ParseInt(w.value) else None;
        selectedWardNumber == (if parsed.Some? then parsed else old(selectedWardNumber))
      ensures panchayats == old(panchayats) && isLoading == old(isLoading) && storage == old(storage)
    {
      var savedPanchayatId := Saved(storage, PanchayatKey);
      var savedWardNumber := Saved(storage, WardKey);
      if savedPanchayatId.Some? && |panchayats| > 0 {
        var p := FindById(panchayats, savedPanchayatId.value);
        if p.Some? {
          selectedPanchayat := p;
        }
      }
      if savedWardNumber.Some? {
        var w := ParseInt(savedWardNumber.value);
        if w.Some? {
          selectedWardNumber := w;
        }
      }
    }

    /** The effect saving the panchayat: its id, or no entry at all. */
    method SavePanchayat()
      modifies this
      ensures selectedPanchayat.Some? ==> storage == old(storage)[PanchayatKey := selectedPanchayat.value.id]
      ensures selectedPanchayat.None? ==> storage == old(storage) - {PanchayatKey}
      ensures panchayats == old(panchayats) && selectedPanchayat == old(selectedPanchayat)
      ensures selectedWardNumber == old(selectedWardNumber) && isLoading == old(isLoading)
    {
      if selectedPanchayat.Some? {
        storage := storage[PanchayatKey := selectedPanchayat.value.id];
      } else {
        storage := storage - {PanchayatKey};
      }
    }

    /** The save effect as intended: while the panchayats are still loading,
        an empty selection does not erase the saved one. */
    method SavePanchayatCorrected()
      modifies this
      ensures selectedPanchayat.Some? ==> storage == old(storage)[PanchayatKey := selectedPanchayat.value.id]
      ensures selectedPanchayat.None? && isLoading ==> storage == old(storage)
      ensures selectedPanchayat.None? && !isLoading ==> storage == old(storage) - {PanchayatKey}
      ensures panchayats == old(panchayats) && selectedPanchayat == old(selectedPanchayat)
      ensures selectedWardNumber == old(selectedWardNumber) && isLoading == old(isLoading)
    {
      if selectedPanchayat.Some? {
        storage := storage[PanchayatKey := selectedPanchayat.value.id];
      } else if !isLoading {
        storage := storage - {PanchayatKey};
      }
    }

    /** The effect saving the ward: its decimal text, or no entry at all. */
    method SaveWard()
      modifies this
      ensures selectedWardNumber.Some? ==> storage == old(storage)[WardKey := IntToString(selectedWardNumber.value)]
      ensures selectedWardNumber.None? ==> storage == old(storage) - {WardKey}
      ensures panchayats == old(panchayats) && selectedPanchayat == old(selectedPanchayat)
      ensures selectedWardNumber == old(selectedWardNumber) && isLoading == old(isLoading)
    {
      if selectedWardNumber.Some? {
        storage := storage[WardKey := IntToString(selectedWardNumber.value)];
      } else {
        storage := storage - {WardKey};
      }
    }

    /** `handleSetSelectedPanchayat`. */
    method HandleSetSelectedPanchayat(p: Option<Panchayat>)
      modifies this
      ensures selectedPanchayat == p
      ensures selectedWardNumber == WardAfterSelect(old(selectedWardNumber), p)
      ensures panchayats == old(panchayats) && isLoading == old(isLoading) && storage == old(storage)
    {
      selectedPanchayat := p;
      if p.Some? && selectedWardNumber.Some? && selectedWardNumber.value > p.value.wardCount {
        selectedWardNumber := None;
      }
    }

    /** `setSelectedWardNumber`. */
    method SetSelectedWardNumber(w: Option<int>)
      modifies this
      ensures selectedWardNumber == w
      ensures panchayats == old(panchayats) && selectedPanchayat == old(selectedPanchayat)
      ensures isLoading == old(isLoading) && storage == old(storage)
    {
      selectedWardNumber := w;
    }
  }

  /** A saved ward survives a reload: the restore effect reads it back as
      the number that was saved. */
  lemma {:induction false} SavedWardReadsBack(storage: map<string, string>, w: int)
    ensures Saved(storage[WardKey := IntToString(w)], WardKey) == Some(IntToString(w))
    ensures ParseInt(IntToString(w)) == Some(w)
  {
    ParseIntOfIntToString(w);
  }

  /** A page load as the source runs it, for a browser that saved panchayat
      `savedId` and whose fetch returns `loaded`: the first render's effects
      in order (restore, save panchayat, save ward), then the render after
      the fetch (restore again, its panchayats having changed). The
      selection that results is empty. */
  method ReloadAsWritten(savedId: string, loaded: seq<Panchayat>) returns (selected: Option<Panchayat>)
    requires savedId != "" && FindById(loaded, savedId).Some?
    ensures selected.None?
  {
    var lp := new LocationProvider(map[PanchayatKey := savedId]);
    lp.RestoreSaved();
    lp.SavePanchayat();
    lp.SaveWard();
    lp.FinishFetch(Some(loaded));
    lp.RestoreSaved();
    selected := lp.selectedPanchayat;
  }

  /** The same page load with the corrected save effect: the saved
      panchayat is selected again once the list has loaded. */
  method ReloadCorrected(savedId: string, loaded: seq<Panchayat>) returns (selected: Option<Panchayat>)
    requires savedId != "" && FindById(loaded, savedId).Some?
    ensures selected == FindById(loaded, savedId)
    ensures selected.Some? && selected.value.id == savedId
  {
    var lp := new LocationProvider(map[PanchayatKey := savedId]);
    lp.RestoreSaved();
    lp.SavePanchayatCorrected();
    lp.SaveWard();
    lp.FinishFetch(Some(loaded));
    lp.RestoreSaved();
    selected := lp.selectedPanchayat;
    lp.SavePanchayatCorrected();
  }
}
