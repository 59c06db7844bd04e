/** `useEvidencia`: the evidence mirror plus a single `evidencia` slot.
    Nothing removes evidence; only create and update rethrow. The list is
    fetched on mount. */
module UseEvidencia {
  import opened Common
  import opened Records
  import opened KeyedList

  class EvidenciaHook {
    const store: EntityStore<Evidencia>
    var evidencia: Option<Evidencia>

    constructor (mount: Outcome<seq<Evidencia>>)
      ensures fresh(store) && evidencia == None && !store.loading
      ensures store.items == if mount.Ok? then mount.value else []
      ensures store.error == if mount.Ok? then None
        else Some(ErrorText(mount.message, "Error al obtener evidencias"))
    {
      store := new EntityStore();
      evidencia := None;
      new;
      Fetch(mount, "Error al obtener evidencias");
    }

    /** `obtenerEvidenciasHook` and the by-visit, by-vendor and by-type
        fetches, which differ in their fallback. */
    method Fetch(response: Outcome<seq<Evidencia>>, fallback: string)
      modifies store
      ensures !store.loading
      ensures store.items == if response.Ok? then response.value else old(store.items)
      ensures store.error == if response.Ok? then old(store.error)
        else Some(ErrorText(response.message, fallback))
    {
      store.Load(response, fallback, false);
    }

    method ObtenerEvidencias(response: Outcome<seq<Evidencia>>)
      modifies store
      ensures !store.loading
      ensures store.items == if response.Ok? then response.value else old(store.items)
      ensures store.error == if response.Ok? then old(store.error)
        else Some(ErrorText(response.message, "Error al obtener evidencias"))
    {
      Fetch(response, "Error al obtener evidencias");
    }

    method ObtenerEvidenciasPorVisita(visitaId: int, response: Outcome<seq<Evidencia>>)
      modifies store
      ensures !store.loading
      ensures store.items == if response.Ok? then response.value else old(store.items)
      ensures store.error == if response.Ok? then old(store.error)
        else Some(ErrorText(response.message, "Error al obtener evidencias por visita"))
    {
      Fetch(response, "Error al obtener evidencias por visita");
    }

    method ObtenerEvidenciasPorVendedor(venId: int, response: Outcome<seq<Evidencia>>)
      modifies store
      ensures !store.loading
      ensures store.items == if response.Ok? then response.value else old(store.items)
      ensures store.error == if response.Ok? then old(store.error)
        else Some(ErrorText(response.message, "Error al obtener evidencias por vendedor"))
    {
      Fetch(response, "Error al obtener evidencias por vendedor");
    }

    method ObtenerEvidenciasPorTipo(tipo: string, response: Outcome<seq<Evidencia>>)
      modifies store
      ensures !store.loading
      ensures store.items == if response.Ok? then response.value else old(store.items)
      ensures store.error == if response.Ok? then old(store.error)
        else Some(ErrorText(response.message, "Error al obtener evidencias por tipo"))
    {
      Fetch(response, "Error al obtener evidencias por tipo");
    }

    /** `obtenerEvidenciaPorIdHook`: sets only the slot; it returns nothing
        and swallows a failure. */
    method ObtenerEvidenciaPorId(id: int, response: Outcome<Evidencia>)
      modifies this`evidencia, store
      ensures !store.loading && store.items == old(store.items)
      ensures store.error == if response.Ok? then old(store.error)
        else Some(ErrorText(response.message, "Error al obtener evidencia"))
      ensures evidencia == if response.Ok? then Some(response.value) else old(evidencia)
    {
      store.Query(response, "Error al obtener evidencia", false);
      if response.Ok? {
        evidencia := Some(response.value);
      }
    }

    method CrearEvidencia(response: Outcome<Evidencia>) returns (r: Outcome<Evidencia>)
      modifies store
      ensures !store.loading
      ensures store.items == if response.Ok? then old(store.items) + [response.value] else old(store.items)
      ensures store.error == if response.Ok? then old(store.error)
        else Some(ErrorText(response.message, "Error al crear evidencia"))
      ensures r == response
    {
      store.Create(response, "Error al crear evidencia", false);
      r := response;
    }

    method ActualizarEvidencia(id: int, response: Outcome<Evidencia>) returns (r: Outcome<Evidencia>)
      modifies store
      ensures !store.loading
      ensures store.items == if response.Ok? then ReplaceByKey(old(store.items), EviId, id, response.value)
        else old(store.items)
      ensures store.error == if response.Ok? then old(store.error)
        else Some(ErrorText(response.message, "Error al actualizar evidencia"))
      ensures r == response
    {
      store.Update(EviId, id, response, "Error al actualizar evidencia", false);
      r := response;
    }
  }
}
