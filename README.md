# SegRutContAsis-Web front-end core, in Dafny

The repository is the administration front-end of a field-sales system. The
backend does the real work: assignments, attendance, geofencing and reports.
This project models what the browser computes on its own:

- **Dashboard aggregation** (`DashboardPage`). This covers:
  - the role counts over active users and the five newest users;
  - the "vendors per supervisor" chart;
  - the client and attendance markers of the map;
  - the live tracking layer, which groups tracking points by vendor and
    draws each vendor with one palette colour, one path, one marker at the
    last point, and one circle per point.
- **The generic table** (`TableCustom`). It filters rows on one field
  (case-insensitive substring), slices them into pages, and its page,
  page-size and search-term state changes under fixed rules.
- **The check-in map** (`VerMarcacionesPorVisitaPage`). Each arrival record
  yields up to two markers, chosen by a three-way toggle.
- **The session store** (`UserProvider` and `useUsuario`, plus the login and
  logout calls of the user API). `localStorage` is a map from string keys
  to string values. `login` writes four session keys, `logout` removes
  them, and the mount effect rebuilds the user from storage.
- **The CRUD hooks** for visits, routes, clients, zones, client addresses,
  both kinds of assignment, evidence and vendor tracking. Each hook keeps a
  local mirror of a backend collection: a list plus a loading flag and an
  error. A fetch replaces the list, a create appends, an update replaces by
  key and a deactivation removes by key.

Every backend call is an input to the model, `Outcome<T> = Ok(value) |
Fail(message)`. Each operation is specified by what it does with the
outcome, so a hook method states the whole new state of its mirror for both
the success and the failure of the call.

Modelling choices:

- **JavaScript semantics the code depends on are written out.**
  - Integers are unbounded and the ids are integers. `parseInt(s, 10)` and
    `String(i)` are modelled on integers (`Common.ParseInt`,
    `Common.IntToString`). They agree with JavaScript for the safe
    integers, |i| <= 2^53 - 1 (see "Left out").
  - The enumeration order of object keys is modelled exactly
    (`Grouping.PropertyOrder`). Array-index keys come first in ascending
    order, and the other keys follow in insertion order. So the tracking
    layer lists the vendors whose id lies in 0 .. 2^32 - 2 first, by
    ascending id, and any other id after them in first-seen order. The
    supervisor chart lists names in first-seen order unless a name looks
    like an integer.
  - `JSON.stringify` and `JSON.parse` of the role list are a real encoder
    and decoder (`JsonRoles`), with the round trip proved:
    - the encoder follows QuoteJSONString (ECMA-262, section 25.5.2.3);
    - the decoder reads arrays of strings as RFC 8259 (sections 2, 5 and 7)
      defines them, including white space, every escape and surrogate
      pairs.
- **Coordinates are opaque numbers** (`Coord = NaN | Finite(scaled)`).
  `Truthy` means finite and non-zero. Nothing is computed on them.
- **The dashboard keeps the source's own strings.** The marker texts in the
  dashboard source hold the UTF-8 bytes of their emoji and accented letters
  re-read as Mac Roman characters: "Sin informaci√≥n" where "Sin
  información" was meant, and "\u{F8FF}üè¢" for the building emoji. The
  model keeps those exact characters. It does not keep the characters the
  authors presumably meant.
- **A restore after a login** gives back the id, token, name and roles that
  were logged in. Email, phone, identity card and tax number are whatever
  storage held under those keys before the login, because `login` never
  writes them. They are null only when storage had none
  (`UserSession.RestoreAfterFreshLogin`).

## Model

| member | source | states |
|---|---|---|
| Common.Coalesce | src/api/Usuario/usuarioApi.ts:16-32 | `a ?? b` is `a` when present and `b` otherwise |
| Common.ErrorText | src/hooks/Visita/useVisita.tsx:26 | the hook error is the exception's message, or the fallback text when that message is empty |
| Common.Lower | src/components/ui/TableCustom.tsx:51-55 | `toLowerCase` keeps the length and lowers each (ASCII) character in place |
| Common.ParseIntToString | src/hooks/Usuario/useUsuario.tsx:41 | `parseInt(String(i), 10)` gives back `i` for every integer id (JavaScript agrees for safe integers, \|i\| <= 2^53 - 1) |
| Common.IntToStringInjective | src/hooks/Usuario/useUsuario.tsx:56 | two ids are stored as the same text exactly when they are equal |
| Common.ArrayIndexOfInt | src/pages/Dashboard/DashboardPage.tsx:280-289 | the property name of a numeric key is an array index exactly when the key is in 0 .. 2^32-2, and then it indexes that number |
| Common.ParseIntOfNegatedDigits | src/hooks/Usuario/useUsuario.tsx:41 | `parseInt` reads a leading minus sign followed by digits as the negated value |
| Common.ParseIntSkipsIdeographicSpace | src/hooks/Usuario/useUsuario.tsx:41 | `parseInt` trims every ECMAScript white-space character, so an id stored after an ideographic space still reads as its number |
| Grouping.FirstKeysMembers | src/pages/Dashboard/DashboardPage.tsx:163-170 | the keys a reduce creates are exactly the keys that occur, each once |
| Grouping.GroupOfSpec | src/pages/Dashboard/DashboardPage.tsx:280-289 | a group holds only elements with its key, as a subsequence of the input, and is non-empty when the key occurs |
| Grouping.GroupsCover | src/pages/Dashboard/DashboardPage.tsx:280-289 | groups over distinct keys that cover every element partition the input: same multiset and same length |
| Grouping.PropertyOrderPermutation | src/pages/Dashboard/DashboardPage.tsx:303 | `Object.keys`/`Object.values` enumerate every key once, neither adding nor dropping any |
| Grouping.PropertyOrderIndicesFirst | src/pages/Dashboard/DashboardPage.tsx:303 | array-index keys are enumerated first, in ascending order |
| Grouping.PropertyOrderKeepsInsertionOrder | src/pages/Dashboard/DashboardPage.tsx:172 | the other keys are enumerated in insertion order |
| Grouping.PropertyOrderNoIndex | src/pages/Dashboard/DashboardPage.tsx:172 | with no array-index key the enumeration order is the insertion order |
| KeyedList.ReplaceByKey | src/hooks/Visita/useVisita.tsx:60-65 | an update keeps the length, puts the new record at every position with the key and leaves every other position as it was |
| KeyedList.ReplaceMissingKey | src/hooks/Visita/useVisita.tsx:60-65 | an update for a key no element has changes nothing |
| KeyedList.ReplaceKeepsKeys | src/hooks/Visita/useVisita.tsx:60-65 | when the new record carries the key it replaces, every position keeps its key |
| KeyedList.RemoveByKeySpec | src/hooks/Visita/useVisita.tsx:74-79 | a removal keeps, in order, exactly the elements with another key, and shortens the list by the number of elements with that key |
| KeyedList.RemoveMissingKey | src/hooks/Visita/useVisita.tsx:74-79 | removing a key no element has changes nothing |
| KeyedList.EntityStore.constructor | src/hooks/Visita/useVisita.tsx:16-18 | a mirror starts with an empty list, no loading and no error |
| KeyedList.EntityStore.Begin | src/hooks/AsignacionClienteVendedor/useAsignacionClienteVendedor.tsx:21-22 | an operation starts by setting loading, and in the assignment hooks by clearing the error |
| KeyedList.EntityStore.Load | src/hooks/Visita/useVisita.tsx:20-30 | a list fetch replaces the list on success, keeps it and sets the error on failure, and ends with loading off |
| KeyedList.EntityStore.Create | src/hooks/Visita/useVisita.tsx:46-58 | a create appends the returned record on success and leaves the list as it was on failure |
| KeyedList.EntityStore.Update | src/hooks/Visita/useVisita.tsx:60-72 | an update replaces the records with the key on success and leaves the list on failure |
| KeyedList.EntityStore.Remove | src/hooks/Visita/useVisita.tsx:74-86 | a deactivation removes the records with the key on success and leaves the list on failure |
| KeyedList.EntityStore.Query | src/hooks/Zona/useZona.tsx:86-100 | a get-by-id or query never touches the list and sets the error only on failure |
| UseVisita.VisitaHook.constructor | src/hooks/Visita/useVisita.tsx:16-18 | an empty list with no loading and no error |
| UseVisita.VisitaHook.ObtenerTodasVisitas | src/hooks/Visita/useVisita.tsx:20-30 | the list becomes the server's; a failure is swallowed, keeps the list and sets the error |
| UseVisita.VisitaHook.ObtenerVisitaId | src/hooks/Visita/useVisita.tsx:32-44 | the whole list becomes the one fetched visit, which is returned; a failure keeps the list and returns null |
| UseVisita.VisitaHook.CrearVisita | src/hooks/Visita/useVisita.tsx:46-58 | the created visit is appended; a failure keeps the list, sets the error and is rethrown |
| UseVisita.VisitaHook.ActualizarVisita | src/hooks/Visita/useVisita.tsx:60-72 | the visits with the id become the response; a failure keeps the list and is rethrown |
| UseVisita.VisitaHook.DeshabilitarVisita | src/hooks/Visita/useVisita.tsx:74-86 | the visits with the id leave the list; a failure keeps the list and is rethrown |
| UseVisita.VisitaHook.FiltrarPorRuta | src/hooks/Visita/useVisita.tsx:88-98 | the list becomes the route's visits; a failure is swallowed |
| UseVisita.VisitaHook.FiltrarPorCliente | src/hooks/Visita/useVisita.tsx:100-110 | the list becomes the client's visits; a failure is swallowed |
| UseVisita.VisitaHook.FiltrarPorVendedor | src/hooks/Visita/useVisita.tsx:112-122 | the list becomes the vendor's visits; a failure is swallowed |
| UseVisita.VisitaHook.FiltrarPorSemana | src/hooks/Visita/useVisita.tsx:124-134 | the list becomes the week's visits; a failure is swallowed |
| UseRuta.RutaHook.constructor | src/hooks/Ruta/useRuta.tsx:111-113 | mounting fetches the routes once: the list is the response, or empty with the error set |
| UseRuta.RutaHook.ObtenerRutas | src/hooks/Ruta/useRuta.tsx:19-29 | the list becomes the server's; a failure is swallowed |
| UseRuta.RutaHook.ObtenerRutaPorId | src/hooks/Ruta/useRuta.tsx:31-43 | only the `ruta` slot changes and is returned; a failure returns null and keeps the slot |
| UseRuta.RutaHook.ObtenerRutasPorVendedor | src/hooks/Ruta/useRuta.tsx:45-55 | the list becomes the vendor's routes; a failure is swallowed |
| UseRuta.RutaHook.ObtenerRutasPorSupervisor | src/hooks/Ruta/useRuta.tsx:57-67 | the list becomes the supervisor's routes; a failure is swallowed |
| UseRuta.RutaHook.CrearRuta | src/hooks/Ruta/useRuta.tsx:69-81 | the created route is appended; a failure keeps the list and is rethrown |
| UseRuta.RutaHook.ActualizarRuta | src/hooks/Ruta/useRuta.tsx:83-95 | the routes with the id become the response; a failure is rethrown |
| UseRuta.RutaHook.DesactivarRuta | src/hooks/Ruta/useRuta.tsx:97-109 | the routes with the id leave the list; a failure is rethrown |
| UseCliente.ClienteHook.constructor | src/hooks/Cliente/useCliente.tsx:12-15 | an empty list, no client, no loading, no error, and no fetch on mount |
| UseCliente.ClienteHook.ObtenerClientes | src/hooks/Cliente/useCliente.tsx:18-30 | the list becomes the server's and is returned; a failure sets the error and is rethrown |
| UseCliente.ClienteHook.ObtenerClientePorId | src/hooks/Cliente/useCliente.tsx:33-45 | only the `cliente` slot changes; a failure returns null |
| UseCliente.ClienteHook.CrearCliente | src/hooks/Cliente/useCliente.tsx:49-61 | the created client is appended; a failure is rethrown |
| UseCliente.ClienteHook.ActualizarCliente | src/hooks/Cliente/useCliente.tsx:65-79 | the clients with the id become the response; a failure is rethrown |
| UseCliente.ClienteHook.DeshabilitarCliente | src/hooks/Cliente/useCliente.tsx:82-94 | the clients with the id leave the list and the call resolves to true; a failure is rethrown |
| UseZona.ZonaHook.constructor | src/hooks/Zona/useZona.tsx:12-14 | an empty list, no loading, no error |
| UseZona.ZonaHook.ObtenerZonas | src/hooks/Zona/useZona.tsx:17-29 | the list becomes the server's and is returned; a failure is rethrown |
| UseZona.ZonaHook.CrearZona | src/hooks/Zona/useZona.tsx:32-44 | the created zone is appended; a failure is rethrown |
| UseZona.ZonaHook.ActualizarZona | src/hooks/Zona/useZona.tsx:47-68 | the zones whose id is the returned zone's id (not the argument) become it, and that zone is returned |
| UseZona.UpdateKeyedOnResponse | src/hooks/Zona/useZona.tsx:53-57 | a response carrying another id leaves the zone with the argument id in place |
| UseZona.ZonaHook.DeshabilitarZona | src/hooks/Zona/useZona.tsx:71-83 | the zones with the argument id leave the list and the call resolves to true; a failure is rethrown |
| UseZona.ZonaHook.ObtenerZonaPorId | src/hooks/Zona/useZona.tsx:86-100 | never touches the list; a failure returns undefined |
| UseDireccionCliente.DireccionClienteHook.constructor | src/hooks/DireccionCliente/useDireccionCliente.tsx:106-108 | mounting fetches all addresses |
| UseDireccionCliente.DireccionClienteHook.ObtenerTodasDirecciones | src/hooks/DireccionCliente/useDireccionCliente.tsx:19-29 | the list becomes the server's; a failure is swallowed |
| UseDireccionCliente.DireccionClienteHook.ObtenerDireccionPorId | src/hooks/DireccionCliente/useDireccionCliente.tsx:32-43 | the `direccion` slot is set and returned; a failure returns undefined and keeps the slot |
| UseDireccionCliente.DireccionClienteHook.ObtenerDireccionesPorCliente | src/hooks/DireccionCliente/useDireccionCliente.tsx:46-56 | the list becomes the client's addresses; a failure is swallowed |
| UseDireccionCliente.DireccionClienteHook.CrearDireccion | src/hooks/DireccionCliente/useDireccionCliente.tsx:59-71 | the created address is appended; a failure is rethrown |
| UseDireccionCliente.DireccionClienteHook.ActualizarDireccion | src/hooks/DireccionCliente/useDireccionCliente.tsx:74-88 | the addresses with the id become the response; a failure is rethrown |
| UseDireccionCliente.DireccionClienteHook.DesactivarDireccion | src/hooks/DireccionCliente/useDireccionCliente.tsx:91-103 | the addresses with the id leave the list; a failure is rethrown |
| UseAsignacionClienteVendedor.AsignacionClienteVendedorHook.constructor | src/hooks/AsignacionClienteVendedor/useAsignacionClienteVendedor.tsx:110-112 | mounting fetches all assignments |
| UseAsignacionClienteVendedor.AsignacionClienteVendedorHook.ObtenerTodasAsignaciones | src/hooks/AsignacionClienteVendedor/useAsignacionClienteVendedor.tsx:20-31 | the error is cleared, then the list becomes the server's; a failure sets the error |
| UseAsignacionClienteVendedor.AsignacionClienteVendedorHook.CrearAsignacion | src/hooks/AsignacionClienteVendedor/useAsignacionClienteVendedor.tsx:34-50 | the created assignment is appended; a failure is rethrown |
| UseAsignacionClienteVendedor.AsignacionClienteVendedorHook.ActualizarAsignacion | src/hooks/AsignacionClienteVendedor/useAsignacionClienteVendedor.tsx:53-71 | the assignments with the id become the response; a failure is rethrown |
| UseAsignacionClienteVendedor.AsignacionClienteVendedorHook.DesactivarAsignacion | src/hooks/AsignacionClienteVendedor/useAsignacionClienteVendedor.tsx:74-89 | the assignments with the id leave the list; a failure is rethrown |
| UseAsignacionClienteVendedor.AsignacionClienteVendedorHook.ObtenerAsignacionPorId | src/hooks/AsignacionClienteVendedor/useAsignacionClienteVendedor.tsx:92-107 | returns the assignment without touching the list, or null on failure |
| UseAsignacionSupervisorVendedor.AsignacionSupervisorVendedorHook.constructor | src/hooks/AsignacionSupervisorVendedor/useAsignacionSupervisorVendedor.tsx:35-37 | mounting fetches the assignments |
| UseAsignacionSupervisorVendedor.AsignacionSupervisorVendedorHook.FetchAsignaciones | src/hooks/AsignacionSupervisorVendedor/useAsignacionSupervisorVendedor.tsx:22-33 | the error is cleared, then the list becomes the server's |
| UseAsignacionSupervisorVendedor.AsignacionSupervisorVendedorHook.AddAsignacion | src/hooks/AsignacionSupervisorVendedor/useAsignacionSupervisorVendedor.tsx:39-54 | the created assignment is appended; a failure is rethrown |
| UseAsignacionSupervisorVendedor.AsignacionSupervisorVendedorHook.UpdateAsignacion | src/hooks/AsignacionSupervisorVendedor/useAsignacionSupervisorVendedor.tsx:56-73 | the assignments with the id become the response; a failure is rethrown |
| UseAsignacionSupervisorVendedor.AsignacionSupervisorVendedorHook.RemoveAsignacion | src/hooks/AsignacionSupervisorVendedor/useAsignacionSupervisorVendedor.tsx:75-87 | the assignments with the id leave the list; a failure is rethrown |
| UseAsignacionSupervisorVendedor.AsignacionSupervisorVendedorHook.GetAsignacionById | src/hooks/AsignacionSupervisorVendedor/useAsignacionSupervisorVendedor.tsx:89-100 | never touches the list; null on failure |
| UseAsignacionSupervisorVendedor.AsignacionSupervisorVendedorHook.GetVendedoresBySupervisor | src/hooks/AsignacionSupervisorVendedor/useAsignacionSupervisorVendedor.tsx:102-113 | never touches the list; `[]` on failure |
| UseAsignacionSupervisorVendedor.AsignacionSupervisorVendedorHook.GetSupervisoresByVendedor | src/hooks/AsignacionSupervisorVendedor/useAsignacionSupervisorVendedor.tsx:115-126 | never touches the list; `[]` on failure |
| UseEvidencia.EvidenciaHook.constructor | src/hooks/Evidencia/useEvidencia.tsx:19-21 | mounting fetches all evidence |
| UseEvidencia.EvidenciaHook.ObtenerEvidencias | src/hooks/Evidencia/useEvidencia.tsx:23-33 | the list becomes the server's; a failure is swallowed |
| UseEvidencia.EvidenciaHook.ObtenerEvidenciaPorId | src/hooks/Evidencia/useEvidencia.tsx:35-45 | only the `evidencia` slot changes |
| UseEvidencia.EvidenciaHook.ObtenerEvidenciasPorVisita | src/hooks/Evidencia/useEvidencia.tsx:47-57 | the list becomes the visit's evidence; a failure is swallowed |
| UseEvidencia.EvidenciaHook.ObtenerEvidenciasPorVendedor | src/hooks/Evidencia/useEvidencia.tsx:59-69 | the list becomes the vendor's evidence; a failure is swallowed |
| UseEvidencia.EvidenciaHook.ObtenerEvidenciasPorTipo | src/hooks/Evidencia/useEvidencia.tsx:71-81 | the list becomes the evidence of that type; a failure is swallowed |
| UseEvidencia.EvidenciaHook.CrearEvidencia | src/hooks/Evidencia/useEvidencia.tsx:83-95 | the created record is appended and returned; a failure is rethrown |
| UseEvidencia.EvidenciaHook.ActualizarEvidencia | src/hooks/Evidencia/useEvidencia.tsx:97-111 | the records with the id become the response; a failure is rethrown |
| UseSeguimientoVendedor.SeguimientoVendedorHook.constructor | src/hooks/SeguimientoVendedor/useSeguimientoVendedor.tsx:10-12 | an empty list, no loading, no error |
| UseSeguimientoVendedor.SeguimientoVendedorHook.ObtenerTodosSeguimientos | src/hooks/SeguimientoVendedor/useSeguimientoVendedor.tsx:14-24 | the list becomes the server's; a failure is swallowed with the list kept |
| UseSeguimientoVendedor.SeguimientoVendedorHook.ObtenerSeguimientosUnVendedor | src/hooks/SeguimientoVendedor/useSeguimientoVendedor.tsx:26-36 | the list becomes that vendor's points; a failure is swallowed |
| UseSeguimientoVendedor.SeguimientoVendedorHook.CrearSeguimiento | src/hooks/SeguimientoVendedor/useSeguimientoVendedor.tsx:38-50 | the created point is appended and returned; a failure keeps the list and is rethrown |
| TableCustom.Filtered | src/components/ui/TableCustom.tsx:49-56 | the filtered rows are never more than the input rows |
| TableCustom.FilteredAll | src/components/ui/TableCustom.tsx:50 | with no search field or an empty term the rows are exactly the input |
| TableCustom.FilteredSpec | src/components/ui/TableCustom.tsx:51-55 | otherwise they are, in input order, exactly the rows whose lowered field text contains the lowered term |
| TableCustom.MatchesIgnoresCase | src/components/ui/TableCustom.tsx:53-54 | lowering the term first changes no match |
| TableCustom.Slice | src/components/ui/TableCustom.tsx:60 | `slice` clamps its bounds: in-range bounds give exactly that range, a start past the end gives nothing |
| TableCustom.Page | src/components/ui/TableCustom.tsx:58-61 | a page has at most `rowsPerPage` rows, is empty when it starts past the rows, and row `i` is filtered row `page*rowsPerPage + i` |
| TableCustom.PagesPrefix | src/components/ui/TableCustom.tsx:58-61 | pages `0 .. k-1` laid end to end are the first `k*rowsPerPage` rows |
| TableCustom.PagesCoverAll | src/components/ui/TableCustom.tsx:58-61 | the pages the paginator offers together give back every filtered row, in order |
| TableCustom.OfferedPagesNonEmpty | src/components/ui/TableCustom.tsx:181-186 | a page is non-empty exactly when the paginator offers it |
| TableCustom.TableState.constructor | src/components/ui/TableCustom.tsx:45-47 | the table starts at page 0, 10 rows per page, empty search |
| TableCustom.TableState.ChangePage | src/components/ui/TableCustom.tsx:185 | only the page moves |
| TableCustom.TableState.ChangeRowsPerPage | src/components/ui/TableCustom.tsx:187-190 | the page size becomes the selected option's number and the page goes back to 0 |
| TableCustom.TableState.ChangeSearchTerm | src/components/ui/TableCustom.tsx:92 | the term changes and the page does not reset |
| TableCustom.TableState.PaginatedRows | src/components/ui/TableCustom.tsx:58-61 | the shown rows are at most a page and at most the filtered rows |
| TableCustom.TableState.RecordCount | src/components/ui/TableCustom.tsx:82 | the caption and the paginator count the filtered rows, never fewer than the page shows |
| TableCustom.OptionsParse | src/components/ui/TableCustom.tsx:188 | every page-size option parses to its number |
| CheckInMarkers.MarcacionesView.constructor | src/pages/GestionVisitas/VerVisitas/VerMarcacionesPorVisitaPage.tsx:38 | the toggle starts at "all" |
| CheckInMarkers.MarcacionesView.OnFilterChange | src/pages/GestionVisitas/VerVisitas/VerMarcacionesPorVisitaPage.tsx:361-365 | a toggle to null leaves the filter; otherwise it becomes the new value |
| CheckInMarkers.MarcacionesView.PushRecord | src/pages/GestionVisitas/VerVisitas/VerMarcacionesPorVisitaPage.tsx:85-136 | one record appends its client marker and then its vendor marker, each exactly when it is shown |
| CheckInMarkers.MarcacionesView.MapMarkers | src/pages/GestionVisitas/VerVisitas/VerMarcacionesPorVisitaPage.tsx:82-139 | the `forEach` loop builds, record by record, each record's client marker then its vendor marker |
| CheckInMarkers.MarkersAppend | src/pages/GestionVisitas/VerVisitas/VerMarcacionesPorVisitaPage.tsx:85-136 | markers follow the record order: those of `a + b` are those of `a` then those of `b` |
| CheckInMarkers.MarkersBound | src/pages/GestionVisitas/VerVisitas/VerMarcacionesPorVisitaPage.tsx:85-136 | there are at most two markers per record |
| CheckInMarkers.MarkerCounts | src/pages/GestionVisitas/VerVisitas/VerMarcacionesPorVisitaPage.tsx:145-146 | the client count is the number of records whose branch is shown, the vendor count likewise, and the two add up to the total |
| CheckInMarkers.MarkerOrigin | src/pages/GestionVisitas/VerVisitas/VerMarcacionesPorVisitaPage.tsx:86-136 | every marker is the client marker of a record whose branch coordinates are truthy and the filter admits clients, or the vendor marker of one whose check-in is truthy and the filter admits vendors |
| CheckInMarkers.MarkerIds | src/pages/GestionVisitas/VerVisitas/VerMarcacionesPorVisitaPage.tsx:109 | ids `client-<id>` and `vendor-<id>` never clash across kinds and identify the record within a kind |
| CheckInMarkers.FilterHidesOtherKind | src/pages/GestionVisitas/VerVisitas/VerMarcacionesPorVisitaPage.tsx:86-117 | the client filter yields no vendor marker and the vendor filter no client marker |
| DashboardUsers.CountRoles | src/pages/Dashboard/DashboardPage.tsx:140-150 | the reduce over active users computes the role counts |
| DashboardUsers.RoleCountsBound | src/pages/Dashboard/DashboardPage.tsx:140-150 | each count is at most the number of active users |
| DashboardUsers.RoleCountsIgnoreInactive | src/pages/Dashboard/DashboardPage.tsx:140 | an inactive user changes no count, wherever it stands |
| DashboardUsers.RoleCountsOverlap | src/pages/Dashboard/DashboardPage.tsx:143-146 | a user with all three roles bumps all three counters, so the counts can exceed the users |
| DashboardUsers.LastRegisteredSpec | src/pages/Dashboard/DashboardPage.tsx:154-155 | the newest list has min(n, 5) users drawn from all users (inactive too), in non-increasing id order, and no left-out user has a higher id than a listed one |
| DashboardSupervisors.CountOne | src/pages/Dashboard/DashboardPage.tsx:163-170 | one reduce step keeps the object exact: names in the order first seen, each count the number of assignments seen so far under that name |
| DashboardSupervisors.GroupSupervisors | src/pages/Dashboard/DashboardPage.tsx:160-174 | the reduce and `Object.values` compute the supervisor chart |
| DashboardSupervisors.Chart | src/pages/Dashboard/DashboardPage.tsx:163-170 | one bar per name, counting that name's active assignments |
| DashboardSupervisors.SupervisorChartNames | src/pages/Dashboard/DashboardPage.tsx:163-172 | every supervisor of an active assignment (an empty name as "Sin asignar") appears, and only once |
| DashboardSupervisors.SupervisorChartBars | src/pages/Dashboard/DashboardPage.tsx:163-172 | every bar is non-empty and belongs to some active assignment |
| DashboardSupervisors.SupervisorChartTotal | src/pages/Dashboard/DashboardPage.tsx:160-172 | the bars add up to the number of active assignments |
| DashboardSupervisors.SupervisorChartFirstSeen | src/pages/Dashboard/DashboardPage.tsx:172 | when no name looks like an integer, the bars come in first-seen order |
| DashboardSupervisors.PrototypeNameDropped | src/pages/Dashboard/DashboardPage.tsx:165-168 | as written, a supervisor named "constructor" gets no bar although its assignment is active |
| DashboardMap.OrElse | src/pages/Dashboard/DashboardPage.tsx:196-201 | `s \|\| fallback` is the fallback or the present value, and non-empty when the fallback is |
| DashboardMap.ClienteMarkersSpec | src/pages/Dashboard/DashboardPage.tsx:177-209 | one client marker per active address with both coordinates truthy and numbers, and no other marker |
| DashboardMap.ClienteMarkersOrder | src/pages/Dashboard/DashboardPage.tsx:177-209 | the client markers follow the addresses' order: markers of a concatenation concatenate, and one address gives its marker exactly when it is valid |
| DashboardMap.ClienteMarkerPlacement | src/pages/Dashboard/DashboardPage.tsx:187-208 | the marker stands at the address, its info shows the same coordinates, and a missing name shows the fallback |
| DashboardMap.FindVendedor | src/pages/Dashboard/DashboardPage.tsx:221-223 | `find` gives the first user linked to the vendor, or nothing exactly when none is |
| DashboardMap.NombreAsistenciaSpec | src/pages/Dashboard/DashboardPage.tsx:219-229 | the shown name is never empty: the record's own name, else the first linked user's, else "Desconocido" |
| DashboardMap.ConNombreSpec | src/pages/Dashboard/DashboardPage.tsx:219-229 | name resolution keeps every record, in order, and changes nothing else |
| DashboardMap.AsistenciaMarkersSpec | src/pages/Dashboard/DashboardPage.tsx:233-267 | one vendor marker per record with valid coordinates and no other: each marker stands at a record's check-in, titled with its resolved name, and every valid record has its marker |
| DashboardMap.AsistenciaMarkersOrder | src/pages/Dashboard/DashboardPage.tsx:233-267 | the vendor markers follow the records' order: markers of a concatenation concatenate, and one record gives its marker exactly when its coordinates are valid |
| DashboardMap.HorarioSpec | src/pages/Dashboard/DashboardPage.tsx:253-261 | the schedule line shows the entry time, and the " \| Salida: " part with the exit time exactly when there is a non-empty exit time, and nothing otherwise |
| DashboardTracking.VendorOrder | src/pages/Dashboard/DashboardPage.tsx:280-291 | the vendors of the grouping object, each once, every vendor of a point included |
| DashboardTracking.TrackingGroups | src/pages/Dashboard/DashboardPage.tsx:280-289 | `Object.values` gives one non-empty group per vendor, holding only that vendor's points |
| DashboardTracking.PushPoint | src/pages/Dashboard/DashboardPage.tsx:281-287 | one reduce step keeps the object exact: vendor ids in the order first seen, each array that vendor's points so far, in order |
| DashboardTracking.GroupByVendor | src/pages/Dashboard/DashboardPage.tsx:280-289 | the reduce that pushes each point computes the key order and the groups |
| DashboardTracking.GroupedValues | src/pages/Dashboard/DashboardPage.tsx:304-312 | reading the final grouping object back in enumeration order gives `VendorOrder` and, per vendor, its group |
| DashboardTracking.VendorOrderAscending | src/pages/Dashboard/DashboardPage.tsx:304-312 | vendor ids in 0 .. 2^32 - 2 are enumerated first, in strictly ascending order; no other id comes before them |
| DashboardTracking.TrackingPartition | src/pages/Dashboard/DashboardPage.tsx:280-289 | the groups together hold every point exactly once |
| DashboardTracking.TrackingGroupsSpec | src/pages/Dashboard/DashboardPage.tsx:280-289 | each group keeps its points in input order, and no two groups share a vendor |
| DashboardTracking.AssignColors | src/pages/Dashboard/DashboardPage.tsx:291-310 | the `forEach` with `colorIndex++` computes the colour table |
| DashboardTracking.AssignedColors | src/pages/Dashboard/DashboardPage.tsx:301-310 | every vendor gets a colour, always from the palette |
| DashboardTracking.AssignedColorsDistinct | src/pages/Dashboard/DashboardPage.tsx:301-310 | the i-th vendor in key order gets palette colour `i mod 8` |
| DashboardTracking.PaletteDistinct | src/pages/Dashboard/DashboardPage.tsx:291-300 | the eight palette colours differ |
| DashboardTracking.BuildLayer | src/pages/Dashboard/DashboardPage.tsx:280-359 | the effect's computation builds exactly the layer of the points |
| DashboardTracking.LayerWellFormed | src/pages/Dashboard/DashboardPage.tsx:312-359 | every group is non-empty and every point's vendor has a colour, so the layer is defined |
| DashboardTracking.TrackingMarkersSpec | src/pages/Dashboard/DashboardPage.tsx:312-333 | one marker per vendor, standing at that vendor's last point |
| DashboardTracking.TrackingPathColors | src/pages/Dashboard/DashboardPage.tsx:335-346 | one path per vendor; vendor `i`'s path goes through that vendor's points in input order, in palette colour `i mod 8` |
| DashboardTracking.TrackingCirclesSpec | src/pages/Dashboard/DashboardPage.tsx:348-359 | one circle per point, centred on it, of radius 15, filled and stroked in palette colour `i mod 8` for a point of the `i`-th vendor |
| DashboardTracking.VenIdIndexIsPropertyIndex | src/pages/Dashboard/DashboardPage.tsx:282-285 | numeric vendor keys enumerate as the object does with `String(venId)` |
| Dashboard.PointsOfMembership | src/pages/Dashboard/DashboardPage.tsx:274-278 | the vendor filter keeps a point exactly when it belongs to that vendor |
| Dashboard.SelectionShowsOneVendor | src/pages/Dashboard/DashboardPage.tsx:274-278 | with a vendor selected only its points are drawn, so the layer has at most one vendor (a branch the page never reaches, since the selected id stays 0) |
| Dashboard.DashboardState.constructor | src/pages/Dashboard/DashboardPage.tsx:87-111 | every piece of derived state starts empty, no vendor selected |
| Dashboard.DashboardState.FetchAsistencias | src/pages/Dashboard/DashboardPage.tsx:115-125 | the attendance list is the response or `[]`, also on failure |
| Dashboard.DashboardState.ProcessData | src/pages/Dashboard/DashboardPage.tsx:137-271 | each derived piece is recomputed only when its input lists are non-empty, otherwise kept |
| Dashboard.DashboardState.ProcessTracking | src/pages/Dashboard/DashboardPage.tsx:273-368 | the layer of the selected points, or an empty layer for an empty list |
| Storage.LocalStorage.GetItem | src/hooks/Usuario/useUsuario.tsx:30-37 | `getItem` is the stored value, or null exactly when the key is missing |
| Storage.LocalStorage.SetItem | src/hooks/Usuario/useUsuario.tsx:55-58 | `setItem` overwrites one key |
| Storage.LocalStorage.RemoveItem | src/hooks/Usuario/useUsuario.tsx:69-72 | `removeItem` drops one key |
| JsonRoles.Hex4 | src/hooks/Usuario/useUsuario.tsx:44 | four hex digits denote a code unit below 0x10000 |
| JsonRoles.ParseStringBody | src/hooks/Usuario/useUsuario.tsx:44 | a parsed string literal consumes at least its closing quote |
| JsonRoles.EscapeStringParse | src/hooks/Usuario/useUsuario.tsx:44 | a string literal as `JSON.stringify` writes it is decoded back to the string, and the text after it is untouched |
| JsonRoles.ItemsParse | src/hooks/Usuario/useUsuario.tsx:44 | the written elements of a non-empty list parse back to the list |
| JsonRoles.StringifyRoundTrip | src/hooks/Usuario/useUsuario.tsx:58 | `JSON.parse(JSON.stringify(roles))` gives back the same roles |
| JsonRoles.StringifyInjective | src/hooks/Usuario/useUsuario.tsx:58 | two role lists are stored as the same text exactly when they are equal |
| JsonRoles.StringifyNonEmpty | src/hooks/Usuario/useUsuario.tsx:58 | the stored roles text is never empty |
| UsuarioApi.NormalizeSpec | src/api/Usuario/usuarioApi.ts:15-33 | each `x ?? x` copies the field, roles default to `[]`, each role flag defaults to false, and the password is the response's own when present and the misspelled field's otherwise |
| UsuarioApi.LoginUsuario | src/api/Usuario/usuarioApi.ts:10-40 | a failure writes nothing; success returns the normalised user and stores its token only when non-empty |
| UsuarioApi.LogoutUsuario | src/api/Usuario/usuarioApi.ts:74-80 | the three keys are removed only after the server answered; a failure removes nothing |
| UsuarioApi.ApiLogoutKeepsUserId | src/api/Usuario/usuarioApi.ts:76-78 | the server-side logout keeps `usrId` and drops the token |
| UserSession.UseUsuario | src/hooks/Usuario/useUsuario.tsx:16-22 | outside a provider the hook fails with its message; inside it returns the context |
| UserSession.UserProvider.constructor | src/hooks/Usuario/useUsuario.tsx:27 | the user starts null |
| UserSession.UserProvider.Restore | src/hooks/Usuario/useUsuario.tsx:29-51 | the user is set exactly when all four keys are non-empty and the roles parse; a roles text that does not parse is reported |
| UserSession.UserProvider.Login | src/hooks/Usuario/useUsuario.tsx:54-60 | the four keys are written in order and the user set to the record |
| UserSession.UserProvider.Logout | src/hooks/Usuario/useUsuario.tsx:63-77 | whether or not the server call succeeds, the four keys go and the user becomes null |
| UserSession.RestoreAfterLoginFinds | src/hooks/Usuario/useUsuario.tsx:39 | after a login a restore finds a session exactly when the token and the name are non-empty |
| UserSession.RestoreAfterLogin | src/hooks/Usuario/useUsuario.tsx:30-58 | such a restore gives back the logged-in id, token, name and roles, and the contact fields storage held before |
| UserSession.RestoreAfterFreshLogin | src/hooks/Usuario/useUsuario.tsx:34-48 | on a storage without contact fields those come back null |
| UserSession.RestoreAfterLogout | src/hooks/Usuario/useUsuario.tsx:69-72 | after a logout no session is restored |
| UserSession.LoginOverwrites | src/hooks/Usuario/useUsuario.tsx:55-58 | the last login decides the stored session |
| UserSession.LoginAfterApiLogin | src/api/Usuario/usuarioApi.ts:35-37 | the token the API stores first is overwritten by `login` |
| UserSession.LoginKeepsOtherKeys | src/hooks/Usuario/useUsuario.tsx:55-58 | a login writes no key but the four session keys |

## Left out

- Backend calls, the network and `async` timing. Each call is an input
  outcome. The model does not capture the order in which concurrent
  responses arrive, or state changes between an `await` and its result.
- React rendering, the loading and error UI, `window.location` redirects,
  `console` logging, and the `setTimeout` navigations.
- The 30-second polling interval of the dashboard
  (src/pages/Dashboard/DashboardPage.tsx:127-134). It only re-runs the
  fetches, which are inputs here.
- Floating-point coordinates, `toFixed` and the Google Maps library.
  Coordinates are opaque, and only their truthiness and NaN-ness matter.
- `dayjs(...).format("HH:mm A")` is the parameter `formatHora`.
- Ids are unbounded integers where the source has JavaScript numbers
  (doubles). `Common.IntToString`, `Common.ParseInt`,
  `Common.ParseIntToString`, `Common.ArrayIndexOfInt`, the check-in marker
  ids and the restored `usrId` match JavaScript only for |i| <= 2^53 - 1.
  Beyond that `String` switches to rounded digits or exponent notation
  (`String(1e21)` is "1e+21", which `parseInt` reads as 1), and `parseInt`
  rounds long digit strings.
- Common.Lower: `toLowerCase` is modelled on the ASCII letters only. Other
  characters keep their case, which is weaker than JavaScript's Unicode
  lowering.
- The table's `String(row[searchField])` is a field function given by the
  caller. The model does not capture JavaScript's conversion of numbers,
  booleans and null to text.
- JsonRoles.ParseRoles: stored roles text that is valid JSON but not an
  array of strings (a number, an object, an array with a non-string) is
  treated as a parse failure. `JSON.parse` would return that value.
- JsonRoles.ParseStringBody rejects an escaped lone surrogate such as
  `"\ud800"`, which `JSON.parse` accepts. Dafny characters are Unicode
  scalar values, so a string holding a lone surrogate cannot be
  represented.
- The records are the declared response shapes. A backend response missing
  a declared non-null field is not modelled.
- DashboardUsers.RoleCounts reads `user.roles?.includes` as if `roles` were
  always a list. A user whose roles are null counts for no role, which is
  also what the model gives for an empty list.
- The dashboard state is built from the corrected supervisor chart (see
  Findings). The chart as written is kept beside it only to exhibit the
  difference, for the 12 names every object inherits from
  `Object.prototype`.
- The other `src/api` wrappers, the map components, the UI components, the
  form pages, the list pages' own search predicates, the router and the
  fetch-only hooks are not part of this model. They forward requests,
  render, or validate with libraries whose semantics are not in view.

## Findings

| source | as written | input that shows it | evidently intended | confidence | as-written member | corrected member |
|---|---|---|---|---|---|---|
| src/pages/Dashboard/DashboardPage.tsx:163-172 | the supervisor reduce builds a plain `{}` object and tests `!acc[supervisor]`; a name such as "constructor" finds the inherited `Object.prototype` member, so no own entry is created and `Object.values` drops it | one active assignment whose supervisor is named "constructor" | every supervisor of an active assignment gets a bar, and the bars add up to the active assignments | not executed | DashboardSupervisors.PrototypeNameDropped | DashboardSupervisors.SupervisorChartTotal |
