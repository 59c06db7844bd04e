/** The client and attendance markers of the dashboard map. Strings are
    spelled exactly as `DashboardPage.tsx` has them: the file stores its
    emoji and accented letters double-encoded, and the page shows them so. */
module DashboardMap {
  import opened Common
  import opened Seqs
  import opened Records

  /** `s || fallback` for an optional string: the fallback when `s` is
      missing or empty. */
  function OrElse(s: Option<string>, fallback: string): (r: string)
    ensures r == fallback || (s.Some? && r == s.value)
    ensures r != "" <== fallback != ""
  {
    if s.Some? && s.value != "" then s.value else fallback
  }

  /** The building emoji and space before a client's name in its info window. */
  const BuildingPrefix: string := "\U{F8FF}\U{00FC}\U{00E8}\U{00A2} "
  /** "Sin información". */
  const SinInformacion: string := "Sin informaci\U{221A}\U{2265}n"
  /** "Sin dirección". */
  const SinDireccion: string := "Sin direcci\U{221A}\U{2265}n"

  // ---------------------------------------------------------------------
  // Client addresses

  /** An active address whose coordinates are both truthy and numbers. */
  predicate ValidDireccion(d: DireccionCliente) {
    d.dirClEstadoDel && Truthy(d.dirClLatitud) && Truthy(d.dirClLongitud)
    && !IsNaN(d.dirClLatitud) && !IsNaN(d.dirClLongitud)
  }

  function ClienteMarkerOf(d: DireccionCliente): Marker {
    var nombre := OrElse(d.nombreCliente, "Sin nombre");
    Marker(
      LatLng(d.dirClLatitud, d.dirClLongitud),
      ClientMarker,
      "Cliente: " + nombre,
      None,
      InfoWindow(BuildingPrefix + nombre,
        EmptyContent.(
          nombreSucursal := Some(d.dirClNombreSucursal.GetOr(SinInformacion)),
          nombreCliente := Some(d.nombreCliente.GetOr(SinInformacion)),
          direccion := Some(if d.dirClDireccion != "" then d.dirClDireccion else SinDireccion),
          nombreZona := Some(d.nombreZona.GetOr(SinInformacion)),
          latitud := Some(d.dirClLatitud),
          longitud := Some(d.dirClLongitud))))
  }

  /** `clienteMarkers`: a marker per valid address, in input order. */
  function ClienteMarkers(direcciones: seq<DireccionCliente>): seq<Marker> {
    var valid := Filter(direcciones, ValidDireccion);
    seq(|valid|, i requires 0 <= i < |valid| => ClienteMarkerOf(valid[i]))
  }

  /** There is one marker per valid address and no other: each marker sits
      at an active address whose coordinates are truthy numbers, and every
      such address has its marker. */
  lemma ClienteMarkersSpec(direcciones: seq<DireccionCliente>)
    ensures |ClienteMarkers(direcciones)| == Count(direcciones, ValidDireccion)
    ensures forall m :: m in ClienteMarkers(direcciones) ==>
      m.kind == ClientMarker && exists d :: d in direcciones && ValidDireccion(d) && m == ClienteMarkerOf(d)
    ensures forall d :: d in direcciones && ValidDireccion(d) ==> ClienteMarkerOf(d) in ClienteMarkers(direcciones)
  {
    var valid := Filter(direcciones, ValidDireccion);
    var r := ClienteMarkers(direcciones);
    FilterLength(direcciones, ValidDireccion);
    forall m | m in r
      ensures m.kind == ClientMarker && exists d :: d in direcciones && ValidDireccion(d) && m == ClienteMarkerOf(d)
    {
      var i :| 0 <= i < |r| && r[i] == m;
      assert valid[i] in valid;
    }
    forall d | d in direcciones && ValidDireccion(d) ensures ClienteMarkerOf(d) in r {
      FilterMembership(direcciones, ValidDireccion, d);
      var i :| 0 <= i < |valid| && valid[i] == d;
      assert r[i] == ClienteMarkerOf(d);
    }
  }

  /** The client markers follow the addresses' order: the markers of two
      lists of addresses are those of the first list followed by those of
      the second, and one address gives its marker exactly when it is valid. */
  lemma ClienteMarkersOrder(a: seq<DireccionCliente>, b: seq<DireccionCliente>, d: DireccionCliente)
    ensures ClienteMarkers(a + b) == ClienteMarkers(a) + ClienteMarkers(b)
    ensures ClienteMarkers([d]) == if ValidDireccion(d) then [ClienteMarkerOf(d)] else []
  {
    FilterAppend(a, b, ValidDireccion);
    var fa := Filter(a, ValidDireccion);
    var fb := Filter(b, ValidDireccion);
    assert Filter(a + b, ValidDireccion) == fa + fb;
    var r := ClienteMarkers(a + b);
    assert |r| == |fa| + |fb|;
    forall i | 0 <= i < |r| ensures r[i] == (ClienteMarkers(a) + ClienteMarkers(b))[i] {
      if i < |fa| {
        assert (fa + fb)[i] == fa[i];
      } else {
        assert (fa + fb)[i] == fb[i - |fa|];
      }
    }
    assert [d][1..] == [];
  }

  /** A client marker stands where its address is, and its info window
      repeats those coordinates; a client without a name reads "Sin nombre". */
  lemma ClienteMarkerPlacement(d: DireccionCliente)
    ensures ClienteMarkerOf(d).position == LatLng(d.dirClLatitud, d.dirClLongitud)
    ensures ClienteMarkerOf(d).info.content.latitud == Some(ClienteMarkerOf(d).position.lat)
    ensures ClienteMarkerOf(d).info.content.longitud == Some(ClienteMarkerOf(d).position.lng)
    ensures d.nombreCliente.None? || d.nombreCliente == Some("") ==>
      ClienteMarkerOf(d).title == "Cliente: Sin nombre"
  {
  }

  // ---------------------------------------------------------------------
  // Attendance

  /** `usuarios.find(u => u.vendedorId === venId)`: the first user linked to
      vendor `venId`, if any. */
  function FindVendedor(usuarios: seq<Usuario>, venId: int): (r: Option<Usuario>)
    ensures r.None? <==> forall i :: 0 <= i < |usuarios| ==> usuarios[i].vendedorId != Some(venId)
    ensures r.Some? ==> exists i :: (0 <= i < |usuarios| && usuarios[i] == r.value
      && usuarios[i].vendedorId == Some(venId)
      && forall j :: 0 <= j < i ==> usuarios[j].vendedorId != Some(venId))
  {
    if usuarios == [] then None
    else if usuarios[0].vendedorId == Some(venId) then Some(usuarios[0])
    else
      var r := FindVendedor(usuarios[1..], venId);
      assert r.Some? ==> exists i :: (1 <= i < |usuarios| && usuarios[i] == r.value
        && usuarios[i].vendedorId == Some(venId)
        && forall j :: 0 <= j < i ==> usuarios[j].vendedorId != Some(venId)) by {
        if r.Some? {
          var k :| 0 <= k < |usuarios[1..]| && usuarios[1..][k] == r.value
            && usuarios[1..][k].vendedorId == Some(venId)
            && forall j :: 0 <= j < k ==> usuarios[1..][j].vendedorId != Some(venId);
          assert usuarios[k + 1] == r.value;
        }
      }
      r
  }

  /** The name an attendance record is shown under: its own vendor name,
      else the full name of the first user linked to its vendor, else
      "Desconocido"; an empty name counts as missing at each step. */
  function NombreAsistencia(a: Asistencia, usuarios: seq<Usuario>): string {
    if a.nombreVendedor.Some? && a.nombreVendedor.value != "" then a.nombreVendedor.value
    else
      var u := FindVendedor(usuarios, a.venId);
      if u.Some? && u.value.usrNombreCompleto != "" then u.value.usrNombreCompleto else "Desconocido"
  }

  /** `{...asistencia, nombreVendedor: nombre}`: the record with its name
      resolved. */
  datatype AsistenciaConNombre = AsistenciaConNombre(asistencia: Asistencia, nombreVendedor: string)

  /** `asistenciasConNombre`. */
  function ConNombre(raw: seq<Asistencia>, usuarios: seq<Usuario>): seq<AsistenciaConNombre> {
    seq(|raw|, i requires 0 <= i < |raw| => AsistenciaConNombre(raw[i], NombreAsistencia(raw[i], usuarios)))
  }

  /** The resolved name is never empty, prefers the record's own name, and
      otherwise comes from the first user linked to the vendor. */
  lemma NombreAsistenciaSpec(a: Asistencia, usuarios: seq<Usuario>)
    ensures NombreAsistencia(a, usuarios) != ""
    ensures a.nombreVendedor.Some? && a.nombreVendedor.value != "" ==>
      NombreAsistencia(a, usuarios) == a.nombreVendedor.value
    ensures (a.nombreVendedor.None? || a.nombreVendedor.value == "") && NombreAsistencia(a, usuarios) != "Desconocido" ==>
      exists i :: (0 <= i < |usuarios| && usuarios[i].vendedorId == Some(a.venId)
        && NombreAsistencia(a, usuarios) == usuarios[i].usrNombreCompleto
        && forall j :: 0 <= j < i ==> usuarios[j].vendedorId != Some(a.venId))
    ensures ((a.nombreVendedor.None? || a.nombreVendedor.value == "")
      && (forall i :: 0 <= i < |usuarios| ==> usuarios[i].vendedorId != Some(a.venId))) ==>
      NombreAsistencia(a, usuarios) == "Desconocido"
  {
  }

  /** Resolving names keeps every record, in order, and changes nothing
      else about it. */
  lemma ConNombreSpec(raw: seq<Asistencia>, usuarios: seq<Usuario>)
    ensures |ConNombre(raw, usuarios)| == |raw|
    ensures forall i :: 0 <= i < |raw| ==>
      ConNombre(raw, usuarios)[i].asistencia == raw[i] && ConNombre(raw, usuarios)[i].nombreVendedor != ""
  {
    forall i | 0 <= i < |raw| ensures ConNombre(raw, usuarios)[i].nombreVendedor != "" {
      NombreAsistenciaSpec(raw[i], usuarios);
    }
  }

  /** Check-in coordinates both truthy and numbers. */
  predicate ValidAsistencia(a: AsistenciaConNombre) {
    Truthy(a.asistencia.asiLatitud) && Truthy(a.asistencia.asiLongitud)
    && !IsNaN(a.asistencia.asiLatitud) && !IsNaN(a.asistencia.asiLongitud)
  }

  /** The info window's "Entrada: ... | Salida: ..." line; `formatHora`
      stands for `dayjs(t).format("HH:mm A")`. */
  function Horario(a: Asistencia, formatHora: Option<string> -> string): string {
    "Entrada: " + formatHora(a.asiHoraEntrada)
    + (if a.asiHoraSalida.Some? && a.asiHoraSalida.value != "" then " | Salida: " + formatHora(a.asiHoraSalida) else "")
  }

  function AsistenciaMarkerOf(a: AsistenciaConNombre, formatHora: Option<string> -> string): Marker {
    Marker(
      LatLng(a.asistencia.asiLatitud, a.asistencia.asiLongitud),
      VendorMarker,
      "Asistencia de " + a.nombreVendedor,
      None,
      InfoWindow(a.nombreVendedor,
        EmptyContent.(
          nombreVendedor := Some(a.nombreVendedor),
          direccion := Some(Horario(a.asistencia, formatHora)),
          latitud := Some(a.asistencia.asiLatitud),
          longitud := Some(a.asistencia.asiLongitud))))
  }

  /** `asistenciaMarkers`: a marker per record with valid coordinates. */
  function AsistenciaMarkers(named: seq<AsistenciaConNombre>, formatHora: Option<string> -> string): seq<Marker> {
    var valid := Filter(named, ValidAsistencia);
    seq(|valid|, i requires 0 <= i < |valid| => AsistenciaMarkerOf(valid[i], formatHora))
  }

  /** One vendor marker per record with valid coordinates, titled with its
      resolved (never empty) name: every marker comes from such a record,
      and every such record has its marker. */
  lemma AsistenciaMarkersSpec(raw: seq<Asistencia>, usuarios: seq<Usuario>, formatHora: Option<string> -> string)
    ensures |AsistenciaMarkers(ConNombre(raw, usuarios), formatHora)| == Count(ConNombre(raw, usuarios), ValidAsistencia)
    ensures forall m :: m in AsistenciaMarkers(ConNombre(raw, usuarios), formatHora) ==>
      m.kind == VendorMarker && m.info.title != ""
      && exists a :: (a in raw && m.position == LatLng(a.asiLatitud, a.asiLongitud)
           && m.title == "Asistencia de " + NombreAsistencia(a, usuarios))
    ensures forall a :: a in raw && ValidAsistencia(AsistenciaConNombre(a, NombreAsistencia(a, usuarios))) ==>
      AsistenciaMarkerOf(AsistenciaConNombre(a, NombreAsistencia(a, usuarios)), formatHora)
        in AsistenciaMarkers(ConNombre(raw, usuarios), formatHora)
  {
    var named := ConNombre(raw, usuarios);
    var valid := Filter(named, ValidAsistencia);
    var r := AsistenciaMarkers(named, formatHora);
    FilterLength(named, ValidAsistencia);
    ConNombreSpec(raw, usuarios);
    forall a | a in raw && ValidAsistencia(AsistenciaConNombre(a, NombreAsistencia(a, usuarios)))
      ensures AsistenciaMarkerOf(AsistenciaConNombre(a, NombreAsistencia(a, usuarios)), formatHora) in r
    {
      var k :| 0 <= k < |raw| && raw[k] == a;
      var n := AsistenciaConNombre(a, NombreAsistencia(a, usuarios));
      assert named[k] == n;
      FilterMembership(named, ValidAsistencia, n);
      var i :| 0 <= i < |valid| && valid[i] == n;
      assert r[i] == AsistenciaMarkerOf(n, formatHora);
    }
    forall m | m in r
      ensures m.kind == VendorMarker && m.info.title != ""
      && exists a :: (a in raw && m.position == LatLng(a.asiLatitud, a.asiLongitud)
           && m.title == "Asistencia de " + NombreAsistencia(a, usuarios))
    {
      var i :| 0 <= i < |r| && r[i] == m;
      assert valid[i] in valid;
      var k :| 0 <= k < |named| && named[k] == valid[i];
      assert raw[k] in raw;
    }
  }

  /** The vendor markers follow the records' order: the markers of two
      lists of records are those of the first list followed by those of the
      second, and one record gives its marker exactly when its coordinates
      are valid. */
  lemma AsistenciaMarkersOrder(r1: seq<Asistencia>, r2: seq<Asistencia>, a: Asistencia,
                               usuarios: seq<Usuario>, formatHora: Option<string> -> string)
    ensures AsistenciaMarkers(ConNombre(r1 + r2, usuarios), formatHora)
      == AsistenciaMarkers(ConNombre(r1, usuarios), formatHora) + AsistenciaMarkers(ConNombre(r2, usuarios), formatHora)
    ensures var n := AsistenciaConNombre(a, NombreAsistencia(a, usuarios));
      AsistenciaMarkers(ConNombre([a], usuarios), formatHora)
        == if ValidAsistencia(n) then [AsistenciaMarkerOf(n, formatHora)] else []
  {
    ConNombreAppend(r1, r2, usuarios);
    AsistenciaMarkersAppend(ConNombre(r1, usuarios), ConNombre(r2, usuarios), formatHora);
    var one := ConNombre([a], usuarios);
    assert one == [AsistenciaConNombre(a, NombreAsistencia(a, usuarios))];
    assert one[1..] == [];
  }

  lemma ConNombreAppend(r1: seq<Asistencia>, r2: seq<Asistencia>, usuarios: seq<Usuario>)
    ensures ConNombre(r1 + r2, usuarios) == ConNombre(r1, usuarios) + ConNombre(r2, usuarios)
  {
  }

  lemma AsistenciaMarkersAppend(n1: seq<AsistenciaConNombre>, n2: seq<AsistenciaConNombre>,
                                formatHora: Option<string> -> string)
    ensures AsistenciaMarkers(n1 + n2, formatHora) == AsistenciaMarkers(n1, formatHora) + AsistenciaMarkers(n2, formatHora)
  {
    FilterAppend(n1, n2, ValidAsistencia);
    var f1 := Filter(n1, ValidAsistencia);
    var f2 := Filter(n2, ValidAsistencia);
    var r := AsistenciaMarkers(n1 + n2, formatHora);
    var m1 := AsistenciaMarkers(n1, formatHora);
    var m2 := AsistenciaMarkers(n2, formatHora);
    assert |r| == |f1| + |f2|;
    forall i | 0 <= i < |r| ensures r[i] == (m1 + m2)[i] {
      assert r[i] == AsistenciaMarkerOf((f1 + f2)[i], formatHora);
      if i < |f1| {
        assert (f1 + f2)[i] == f1[i];
        assert m1[i] == AsistenciaMarkerOf(f1[i], formatHora);
      } else {
        assert (f1 + f2)[i] == f2[i - |f1|];
        assert m2[i - |f1|] == AsistenciaMarkerOf(f2[i - |f1|], formatHora);
      }
    }
  }

  /** The schedule line always starts with the check-in time, and shows a
      check-out time exactly when there is a non-empty one. */
  lemma HorarioSpec(a: Asistencia, formatHora: Option<string> -> string)
    ensures Horario(a, formatHora)[..9] == "Entrada: "
    ensures a.asiHoraSalida.None? || a.asiHoraSalida == Some("") ==>
      Horario(a, formatHora) == "Entrada: " + formatHora(a.asiHoraEntrada)
    ensures a.asiHoraSalida.Some? && a.asiHoraSalida.value != "" ==>
      Horario(a, formatHora) == "Entrada: " + formatHora(a.asiHoraEntrada) + " | Salida: " + formatHora(a.asiHoraSalida)
  {
  }
}
