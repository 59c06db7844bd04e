/** The response records the front end receives from the backend, one
    datatype per `*ResponseDTO` interface under `src/types`. A field the
    interface marks optional or `| null` is an `Option`; coordinates are
    `Coord`. Dates and times arrive as strings and are kept as such. */
module Records {
  import opened Common

  datatype Usuario = Usuario(
    usrId: int,
    token: string,
    usrNombreCompleto: string,
    usrCorreo: Option<string>,
    usrCarnetIdentidad: Option<string>,
    usrNitEmpleado: Option<string>,
    usrTelefono: Option<string>,
    usrUsuarioLog: Option<string>,
    usrContrasenaLog: Option<string>,
    usrEstadoDel: bool,
    roles: seq<string>,
    vendedorId: Option<int>,
    supervisorId: Option<int>,
    esAdministrador: Option<bool>,
    esVendedor: Option<bool>,
    esSupervisor: Option<bool>)

  datatype Visita = Visita(
    visId: int,
    rutId: int,
    dirClId: int,
    visEstadoDel: bool,
    visComentario: Option<string>,
    nombreCliente: Option<string>,
    nombreSucursalCliente: Option<string>,
    sucursalLatitud: Option<Coord>,
    sucursalLongitud: Option<Coord>,
    nombreZona: Option<string>,
    direccion: Option<string>,
    nombreVendedor: Option<string>,
    nombreRuta: Option<string>,
    fechaEjecucionRuta: Option<string>)

  datatype Ruta = Ruta(
    rutId: int,
    venId: int,
    supId: Option<int>,
    rutNombre: string,
    rutComentario: Option<string>,
    rutFechaEjecucion: string,
    nombreVendedor: Option<string>,
    nombreSupervisor: Option<string>)

  datatype Cliente = Cliente(
    clId: int,
    clNombreCompleto: string,
    clCarnetIdentidad: string,
    clNitCliente: string,
    clTipoCliente: Option<string>,
    clTelefono: string)

  datatype Zona = Zona(
    zonId: int,
    zonNombre: string,
    zonDescripcion: string,
    zonFechaCreacion: string,
    zonEstadoDel: bool)

  /** What `actualizarZona` resolves to: `{ mensaje, zona }`. */
  datatype ZonaActualizada = ZonaActualizada(mensaje: string, zona: Zona)

  datatype DireccionCliente = DireccionCliente(
    dirClId: int,
    clId: int,
    nombreCliente: Option<string>,
    zonId: Option<int>,
    nombreZona: Option<string>,
    dirClNombreSucursal: Option<string>,
    dirClDireccion: string,
    dirClLatitud: Coord,
    dirClLongitud: Coord,
    dirClFechaCreacion: string,
    dirClEstadoDel: bool)

  datatype AsignacionClienteVendedor = AsignacionClienteVendedor(
    asgId: int,
    supId: int,
    supervisorNombre: string,
    venId: int,
    vendedorNombre: string,
    clId: int,
    clienteNombre: string,
    asgFechaCreacion: string,
    asgEstadoDel: bool)

  datatype AsignacionSupervisorVendedor = AsignacionSupervisorVendedor(
    asvId: int,
    supId: int,
    nombreSupervisor: string,
    venId: int,
    nombreVendedor: string,
    asvFechaCreacion: string,
    asvEstadoDel: bool)

  datatype Evidencia = Evidencia(
    eviId: int,
    eviFechaCreacion: string,
    visitaId: int,
    eviTipo: Option<string>,
    eviObservaciones: Option<string>)

  datatype SeguimientoVendedor = SeguimientoVendedor(
    segId: int,
    venId: int,
    segFechaCreacion: string,
    segLatitud: Coord,
    segLongitud: Coord,
    vendedorNombre: string)

  datatype Asistencia = Asistencia(
    asiId: int,
    venId: int,
    asiHoraEntrada: Option<string>,
    asiHoraSalida: Option<string>,
    asiLatitud: Coord,
    asiLongitud: Coord,
    nombreVendedor: Option<string>)

  /** A check-in at a visit (`MarcarLlegadaVisitaResponseDTO`). */
  datatype MarcarLlegadaVisita = MarcarLlegadaVisita(
    mlvId: int,
    visId: int,
    mlvHora: int,
    mlvLatitud: Coord,
    mlvLongitud: Coord,
    mlvEstadoDel: bool,
    mlvFechaCreacion: string,
    nombreCliente: string,
    nombreSucursalCliente: string,
    sucursalLatitud: Coord,
    sucursalLongitud: Coord,
    nombreVendedor: string,
    usuarioLogVendedor: string,
    telefonoVendedor: string)

  // Keys the hooks match on.
  function VisId(v: Visita): int { v.visId }
  function RutId(r: Ruta): int { r.rutId }
  function ClId(c: Cliente): int { c.clId }
  function ZonId(z: Zona): int { z.zonId }
  function DirClId(d: DireccionCliente): int { d.dirClId }
  function AsgId(a: AsignacionClienteVendedor): int { a.asgId }
  function AsvId(a: AsignacionSupervisorVendedor): int { a.asvId }
  function EviId(e: Evidencia): int { e.eviId }
  function SegId(s: SeguimientoVendedor): int { s.segId }

  // ---------------------------------------------------------------------
  // What the map widget is given (`MarkerData`, `InfoWindowData`,
  // `PathData`, `CircleData` of the map component).

  datatype MarkerType = ClientMarker | VendorMarker

  datatype InfoContent = InfoContent(
    nombreCliente: Option<string>,
    nombreSucursal: Option<string>,
    direccion: Option<string>,
    nombreZona: Option<string>,
    latitud: Option<Coord>,
    longitud: Option<Coord>,
    nombreVendedor: Option<string>,
    usuarioLog: Option<string>,
    telefonoVendedor: Option<string>)

  const EmptyContent := InfoContent(None, None, None, None, None, None, None, None, None)

  datatype InfoWindow = InfoWindow(title: string, content: InfoContent)

  datatype Marker = Marker(
    position: LatLng,
    kind: MarkerType,
    title: string,
    id: Option<string>,
    info: InfoWindow)

  datatype Path = Path(path: seq<LatLng>, strokeColor: string)

  datatype Circle = Circle(
    center: LatLng,
    radius: int,
    fillColor: string,
    strokeColor: string,
    strokeWeight: int)
}
