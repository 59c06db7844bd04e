/** `DashboardPage`'s derived state and its two processing effects. Each
    effect recomputes a piece of state only when its input list is
    non-empty; otherwise that piece keeps its previous value, except the
    tracking layer, which an empty list clears. */
module Dashboard {
  import opened Common
  import opened Seqs
  import opened Records
  import opened DashboardUsers
  import opened DashboardSupervisors
  import opened DashboardMap
  import opened DashboardTracking
  import opened Grouping

  /** The points the tracking layer draws: all of them when no vendor is
      selected (id 0), otherwise the selected vendor's. */
  function SelectedPoints(seguimientos: seq<SeguimientoVendedor>, selectedVendedorId: int): seq<SeguimientoVendedor> {
    if selectedVendedorId == 0 then seguimientos else PointsOf(seguimientos, selectedVendedorId)
  }

  /** The `filter` on `venId`: one vendor's points, in their order. */
  function PointsOf(seguimientos: seq<SeguimientoVendedor>, venId: int): seq<SeguimientoVendedor> {
    if seguimientos == [] then []
    else (if seguimientos[0].venId == venId then [seguimientos[0]] else []) + PointsOf(seguimientos[1..], venId)
  }

  /** A point is kept exactly when it belongs to the vendor. */
  lemma {:induction false} PointsOfMembership(seguimientos: seq<SeguimientoVendedor>, venId: int, s: SeguimientoVendedor)
    ensures s in PointsOf(seguimientos, venId) <==> s in seguimientos && s.venId == venId
  {
    if seguimientos != [] {
      PointsOfMembership(seguimientos[1..], venId, s);
      assert seguimientos == [seguimientos[0]] + seguimientos[1..];
    }
  }

  class DashboardState {
    var userCounts: UserCounts
    var lastRegisteredUsers: seq<Usuario>
    var supervisorVendedorData: seq<SupervisorVendedorCount>
    var asistencias: seq<AsistenciaConNombre>
    var asistenciaMarkers: seq<Marker>
    var clienteMarkers: seq<Marker>
    var rawAsistencias: seq<Asistencia>
    var seguimientoMarkers: seq<Marker>
    var seguimientoPaths: seq<Path>
    var seguimientoCircles: seq<Circle>
    /** Has no setter, so stays 0: every vendor is shown. */
    var selectedVendedorId: int

    constructor ()
      ensures userCounts == UserCounts(0, 0, 0)
      ensures lastRegisteredUsers == [] && supervisorVendedorData == []
      ensures asistencias == [] && asistenciaMarkers == [] && clienteMarkers == [] && rawAsistencias == []
      ensures seguimientoMarkers == [] && seguimientoPaths == [] && seguimientoCircles == []
      ensures selectedVendedorId == 0
    {
      userCounts := UserCounts(0, 0, 0);
      lastRegisteredUsers := [];
      supervisorVendedorData := [];
      asistencias := [];
      asistenciaMarkers := [];
      clienteMarkers := [];
      rawAsistencias := [];
      seguimientoMarkers := [];
      seguimientoPaths := [];
      seguimientoCircles := [];
      selectedVendedorId := 0;
    }

    /** The attendance fetch on mount: the list returned (`data || []`), or
        the empty list when the request fails. */
    method FetchAsistencias(response: Outcome<Option<seq<Asistencia>>>)
      modifies this`rawAsistencias
      ensures rawAsistencias == if response.Ok? && response.value.Some? then response.value.value else []
    {
      match response {
        case Ok(data) => rawAsistencias := if data.Some? then data.value else [];
        case Fail(_) => rawAsistencias := [];
      }
    }

    /** The effect over users, assignments, addresses and attendance
        records, one block after the other: role counts and the five newest
        users when there are users, the supervisor chart when there are
        assignments, the client markers when there are addresses, and the
        named attendance records with their markers when there are both
        records and users. `formatHora` stands for
        `dayjs(t).format("HH:mm A")`. */
    method ProcessData(usuarios: seq<Usuario>, asignaciones: seq<AsignacionSupervisorVendedor>,
                       direcciones: seq<DireccionCliente>, formatHora: Option<string> -> string)
      modifies this`userCounts, this`lastRegisteredUsers, this`supervisorVendedorData
      modifies this`clienteMarkers, this`asistencias, this`asistenciaMarkers
      ensures userCounts == if |usuarios| > 0 then RoleCounts(usuarios) else old(userCounts)
      ensures lastRegisteredUsers == if |usuarios| > 0 then LastRegistered(usuarios) else old(lastRegisteredUsers)
      ensures supervisorVendedorData ==
        if |asignaciones| > 0 then SupervisorChart(asignaciones) else old(supervisorVendedorData)
      ensures clienteMarkers == if |direcciones| > 0 then ClienteMarkers(direcciones) else old(clienteMarkers)
      ensures asistencias ==
        if |rawAsistencias| > 0 && |usuarios| > 0 then ConNombre(rawAsistencias, usuarios) else old(asistencias)
      ensures asistenciaMarkers ==
        if |rawAsistencias| > 0 && |usuarios| > 0 then AsistenciaMarkers(ConNombre(rawAsistencias, usuarios), formatHora)
        else old(asistenciaMarkers)
    {
      var counts, newest := userCounts, lastRegisteredUsers;
      if |usuarios| > 0 {
        counts := CountRoles(usuarios);
        newest := LastRegistered(usuarios);
      }
      var chart := supervisorVendedorData;
      if |asignaciones| > 0 {
        chart := GroupSupervisors(asignaciones);
      }
      var clientes := clienteMarkers;
      if |direcciones| > 0 {
        clientes := ClienteMarkers(direcciones);
      }
      var named, vendedores := asistencias, asistenciaMarkers;
      if |rawAsistencias| > 0 && |usuarios| > 0 {
        named := ConNombre(rawAsistencias, usuarios);
        vendedores := AsistenciaMarkers(named, formatHora);
      }
      SetData(counts, newest, chart, clientes, named, vendedores);
    }

    /** Store the effect's results in the six state fields. */
    method SetData(counts: UserCounts, newest: seq<Usuario>, chart: seq<SupervisorVendedorCount>,
                   clientes: seq<Marker>, named: seq<AsistenciaConNombre>, vendedores: seq<Marker>)
      modifies this`userCounts, this`lastRegisteredUsers, this`supervisorVendedorData
      modifies this`clienteMarkers, this`asistencias, this`asistenciaMarkers
      ensures userCounts == counts && lastRegisteredUsers == newest && supervisorVendedorData == chart
      ensures clienteMarkers == clientes && asistencias == named && asistenciaMarkers == vendedores
    {
      userCounts := counts;
      lastRegisteredUsers := newest;
      supervisorVendedorData := chart;
      clienteMarkers := clientes;
      asistencias := named;
      asistenciaMarkers := vendedores;
    }

    /** The tracking effect: draw the selected points' layer, or clear it
        when the list is empty. */
    method ProcessTracking(seguimientos: seq<SeguimientoVendedor>)
      modifies this`seguimientoMarkers, this`seguimientoPaths, this`seguimientoCircles
      ensures TrackingLayer(seguimientoMarkers, seguimientoPaths, seguimientoCircles) ==
        if |seguimientos| > 0 then LayerOf(SelectedPoints(seguimientos, selectedVendedorId)) else TrackingLayer([], [], [])
    {
      var points := SelectedPoints(seguimientos, selectedVendedorId);
      var layer := TrackingLayer([], [], []);
      if |seguimientos| > 0 {
        layer := BuildLayer(points);
      }
      SetLayer(layer);
    }

    /** Store a computed layer in the three state fields. */
    method SetLayer(layer: TrackingLayer)
      modifies this`seguimientoMarkers, this`seguimientoPaths, this`seguimientoCircles
      ensures TrackingLayer(seguimientoMarkers, seguimientoPaths, seguimientoCircles) == layer
    {
      seguimientoMarkers := layer.markers;
      seguimientoPaths := layer.paths;
      seguimientoCircles := layer.circles;
    }
  }

  /** With no vendor selected every point is drawn. */
  lemma NoSelectionShowsAll(seguimientos: seq<SeguimientoVendedor>)
    ensures SelectedPoints(seguimientos, 0) == seguimientos
  {
  }

  /** With a vendor selected, only that vendor's points are drawn, so the
      layer has at most one vendor. The page never sets `selectedVendedorId`
      (it has no setter and stays 0), so in the page this branch is dead;
      the lemma states what the branch would draw. */
  lemma SelectionShowsOneVendor(seguimientos: seq<SeguimientoVendedor>, venId: int)
    requires venId != 0
    ensures forall s :: s in SelectedPoints(seguimientos, venId) <==> s in seguimientos && s.venId == venId
    ensures |VendorOrder(SelectedPoints(seguimientos, venId))| <= 1
  {
    var points := SelectedPoints(seguimientos, venId);
    forall s ensures s in points <==> s in seguimientos && s.venId == venId {
      PointsOfMembership(seguimientos, venId, s);
    }
    var order := VendorOrder(points);
    forall k | 0 <= k < |order| ensures order[k] == venId {
      assert order[k] in order;
      var i :| 0 <= i < |points| && VenId(points[i]) == order[k];
      assert points[i] in points;
    }
    DistinctConstant(order, venId);
  }
}
