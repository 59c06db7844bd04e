/** The map of `VerMarcacionesPorVisitaPage`: every arrival record of the
    selected visit gives a marker at the client's branch and a marker where
    the vendor checked in, each shown or hidden by a three-way filter. */
module CheckInMarkers {
  import opened Common
  import opened Seqs
  import opened Records

  /** The toggle: all markers, only client markers, only vendor markers. */
  datatype FilterType = All | Client | Vendor

  /** The branch coordinates are both truthy and the filter admits clients. */
  predicate ClientShown(m: MarcarLlegadaVisita, filter: FilterType) {
    Truthy(m.sucursalLatitud) && Truthy(m.sucursalLongitud) && (filter == All || filter == Client)
  }

  /** The check-in coordinates are both truthy and the filter admits vendors. */
  predicate VendorShown(m: MarcarLlegadaVisita, filter: FilterType) {
    Truthy(m.mlvLatitud) && Truthy(m.mlvLongitud) && (filter == All || filter == Vendor)
  }

  function ClientId(mlvId: int): string { "client-" + IntToString(mlvId) }
  function VendorId(mlvId: int): string { "vendor-" + IntToString(mlvId) }

  /** The marker at the client's branch. */
  function ClientMarkerOf(m: MarcarLlegadaVisita): Marker {
    Marker(
      LatLng(m.sucursalLatitud, m.sucursalLongitud),
      ClientMarker,
      m.nombreSucursalCliente,
      Some(ClientId(m.mlvId)),
      InfoWindow("Ubicación del Cliente",
        EmptyContent.(
          nombreCliente := Some(m.nombreCliente),
          nombreSucursal := Some(m.nombreSucursalCliente),
          nombreZona := Some("No visible"),
          direccion := Some("No visible"),
          latitud := Some(m.sucursalLatitud),
          longitud := Some(m.sucursalLongitud))))
  }

  /** The marker where the vendor checked in. Its info window shows the
      branch coordinates, not the check-in ones. */
  function VendorMarkerOf(m: MarcarLlegadaVisita): Marker {
    Marker(
      LatLng(m.mlvLatitud, m.mlvLongitud),
      VendorMarker,
      if m.nombreVendedor != "" then m.nombreVendedor else "Vendedor",
      Some(VendorId(m.mlvId)),
      InfoWindow("Ubicación del Vendedor",
        EmptyContent.(
          nombreVendedor := Some(m.nombreVendedor),
          telefonoVendedor := Some(m.telefonoVendedor),
          usuarioLog := Some(m.usuarioLogVendedor),
          latitud := Some(m.sucursalLatitud),
          longitud := Some(m.sucursalLongitud))))
  }

  /** What one record contributes, client marker first. */
  function RecordMarkers(m: MarcarLlegadaVisita, filter: FilterType): seq<Marker> {
    (if ClientShown(m, filter) then [ClientMarkerOf(m)] else [])
    + (if VendorShown(m, filter) then [VendorMarkerOf(m)] else [])
  }

  /** The markers of the records, record by record in input order. */
  function Markers(ms: seq<MarcarLlegadaVisita>, filter: FilterType): seq<Marker> {
    if ms == [] then [] else Markers(ms[..|ms| - 1], filter) + RecordMarkers(ms[|ms| - 1], filter)
  }

  predicate IsClient(k: Marker) { k.kind == ClientMarker }
  predicate IsVendor(k: Marker) { k.kind == VendorMarker }

  /** `clientMarkers` and `vendorMarkers`, the two numbers under the map. */
  function ClientCount(markers: seq<Marker>): nat { Count(markers, IsClient) }
  function VendorCount(markers: seq<Marker>): nat { Count(markers, IsVendor) }

  /** The page's filter state and its marker builder. */
  class MarcacionesView {
    var filterType: FilterType

    constructor ()
      ensures filterType == All
    {
      filterType := All;
    }

    /** The toggle group's `onChange`: a deselection (null) is ignored. */
    method OnFilterChange(newValue: Option<FilterType>)
      modifies this
      ensures filterType == if newValue.Some? then newValue.value else old(filterType)
    {
      if newValue.Some? {
        filterType := newValue.value;
      }
    }

    /** `mapMarkers`: one pass over the records, pushing each record's
        client marker and then its vendor marker when they are shown. */
    method MapMarkers(marcaciones: seq<MarcarLlegadaVisita>) returns (markers: seq<Marker>)
      ensures markers == Markers(marcaciones, filterType)
    {
      var filter := filterType;
      markers := [];
      var i := 0;
      while i < |marcaciones|
        invariant 0 <= i <= |marcaciones|
        invariant markers == Markers(marcaciones[..i], filter)
      {
        var m := marcaciones[i];
        markers := PushRecord(markers, m, filter);
        MarkersStep(marcaciones, i, filter);
        i := i + 1;
      }
      assert marcaciones[..i] == marcaciones;
    }

    /** The `forEach` callback: push the record's client marker, then its
        vendor marker, each when it is shown. */
    static method PushRecord(markers: seq<Marker>, m: MarcarLlegadaVisita, filter: FilterType) returns (r: seq<Marker>)
      ensures r == markers + RecordMarkers(m, filter)
    {
      r := markers;
      if ClientShown(m, filter) {
        r := r + [ClientMarkerOf(m)];
      }
      if VendorShown(m, filter) {
        r := r + [VendorMarkerOf(m)];
      }
    }
  }

  // ---------------------------------------------------------------------
  // Properties

  /** The markers of a list with one more record at the end. */
  lemma MarkersSnoc(init: seq<MarcarLlegadaVisita>, last: MarcarLlegadaVisita, filter: FilterType)
    ensures Markers(init + [last], filter) == Markers(init, filter) + RecordMarkers(last, filter)
  {
    var s := init + [last];
    assert s[..|s| - 1] == init;
    assert s[|s| - 1] == last;
  }

  /** The markers of the first `i + 1` records. */
  lemma MarkersStep(ms: seq<MarcarLlegadaVisita>, i: nat, filter: FilterType)
    requires i < |ms|
    ensures Markers(ms[..i + 1], filter) == Markers(ms[..i], filter) + RecordMarkers(ms[i], filter)
  {
    assert ms[..i + 1][..i] == ms[..i];
  }

  lemma {:induction false} MarkersAppend(a: seq<MarcarLlegadaVisita>, b: seq<MarcarLlegadaVisita>, filter: FilterType)
    ensures Markers(a + b, filter) == Markers(a, filter) + Markers(b, filter)
    decreases |b|
  {
    if b != [] {
      DropLastAppend(a, b);
      MarkersAppend(a, b[..|b| - 1], filter);
    } else {
      assert a + b == a;
    }
  }

  /** At most two markers per record. */
  lemma {:induction false} MarkersBound(ms: seq<MarcarLlegadaVisita>, filter: FilterType)
    ensures |Markers(ms, filter)| <= 2 * |ms|
  {
    if ms != [] {
      MarkersBound(ms[..|ms| - 1], filter);
    }
  }

  /** One record gives a client marker exactly when its branch is shown and
      a vendor marker exactly when its check-in is shown. */
  lemma RecordCounts(m: MarcarLlegadaVisita, filter: FilterType)
    ensures ClientCount(RecordMarkers(m, filter)) == if ClientShown(m, filter) then 1 else 0
    ensures VendorCount(RecordMarkers(m, filter)) == if VendorShown(m, filter) then 1 else 0
    ensures |RecordMarkers(m, filter)| == ClientCount(RecordMarkers(m, filter)) + VendorCount(RecordMarkers(m, filter))
  {
    var c: seq<Marker> := if ClientShown(m, filter) then [ClientMarkerOf(m)] else [];
    var v: seq<Marker> := if VendorShown(m, filter) then [VendorMarkerOf(m)] else [];
    assert RecordMarkers(m, filter) == c + v;
    CountAppend(c, v, IsClient);
    CountAppend(c, v, IsVendor);
    assert Count(c, IsClient) == |c| && Count(c, IsVendor) == 0 by {
      if c != [] { assert c[1..] == []; }
    }
    assert Count(v, IsVendor) == |v| && Count(v, IsClient) == 0 by {
      if v != [] { assert v[1..] == []; }
    }
  }

  /** The client markers are exactly one per record whose client marker is
      shown, and likewise for vendors; so the two counts under the map add
      up to the number of markers. */
  lemma {:induction false} MarkerCounts(ms: seq<MarcarLlegadaVisita>, filter: FilterType)
    ensures ClientCount(Markers(ms, filter)) == Count(ms, m => ClientShown(m, filter))
    ensures VendorCount(Markers(ms, filter)) == Count(ms, m => VendorShown(m, filter))
    ensures ClientCount(Markers(ms, filter)) + VendorCount(Markers(ms, filter)) == |Markers(ms, filter)|
  {
    if ms != [] {
      var init, last := ms[..|ms| - 1], ms[|ms| - 1];
      assert ms == init + [last];
      MarkerCounts(init, filter);
      MarkersSnoc(init, last, filter);
      RecordCounts(last, filter);
      CountAppend(Markers(init, filter), RecordMarkers(last, filter), IsClient);
      CountAppend(Markers(init, filter), RecordMarkers(last, filter), IsVendor);
      CountSnoc(init, last, m => ClientShown(m, filter));
      CountSnoc(init, last, m => VendorShown(m, filter));
    }
  }

  /** Every marker is the client marker of a record whose branch is shown or
      the vendor marker of a record whose check-in is shown. */
  lemma {:induction false} MarkerOrigin(ms: seq<MarcarLlegadaVisita>, filter: FilterType, k: Marker)
    requires k in Markers(ms, filter)
    ensures exists m :: (m in ms &&
      ((k == ClientMarkerOf(m) && ClientShown(m, filter)) || (k == VendorMarkerOf(m) && VendorShown(m, filter))))
  {
    var init := ms[..|ms| - 1];
    var last := ms[|ms| - 1];
    if k in Markers(init, filter) {
      MarkerOrigin(init, filter, k);
      assert forall m :: m in init ==> m in ms;
    } else {
      assert k in RecordMarkers(last, filter);
    }
  }

  /** Marker ids never clash across kinds, and within a kind they tell the
      arrival records apart. */
  lemma MarkerIds(i: int, j: int)
    ensures ClientId(i) == ClientId(j) <==> i == j
    ensures VendorId(i) == VendorId(j) <==> i == j
    ensures ClientId(i) != VendorId(j)
  {
    IntToStringInjective(i, j);
    if ClientId(i) == ClientId(j) {
      assert ClientId(i)[7..] == IntToString(i);
      assert ClientId(j)[7..] == IntToString(j);
    }
    if VendorId(i) == VendorId(j) {
      assert VendorId(i)[7..] == IntToString(i);
      assert VendorId(j)[7..] == IntToString(j);
    }
    assert ClientId(i)[0] != VendorId(j)[0];
  }

  /** The filter picks out the kinds: with `Client` there are no vendor
      markers, with `Vendor` no client markers. */
  lemma FilterHidesOtherKind(ms: seq<MarcarLlegadaVisita>)
    ensures VendorCount(Markers(ms, Client)) == 0
    ensures ClientCount(Markers(ms, Vendor)) == 0
  {
    MarkerCounts(ms, Client);
    MarkerCounts(ms, Vendor);
    CountNone(ms, m => VendorShown(m, Client));
    CountNone(ms, m => ClientShown(m, Vendor));
  }

  lemma {:induction false} CountNone<T>(s: seq<T>, p: T -> bool)
    requires forall x :: !p(x)
    ensures Count(s, p) == 0
  {
    if s != [] {
      CountNone(s[1..], p);
    }
  }
}
