/** `useRuta`: the routes mirror plus a single `ruta` slot. The list is
    fetched once on mount; fetches swallow their errors, mutations rethrow. */
module UseRuta {
  import opened Common
  import opened Records
  import opened KeyedList

  class RutaHook {
    const store: EntityStore<Ruta>
    var ruta: Option<Ruta>

    /** Mounting runs `obtenerRutasHook` with the mount-time response. */
    constructor (mount: Outcome<seq<Ruta>>)
      ensures fresh(store) && ruta == None && !store.loading
      ensures store.items == if mount.Ok? then mount.value else []
      ensures store.error == if mount.Ok? then None
        else Some(ErrorText(mount.message, "Error al obtener rutas"))
    {
      store := new EntityStore();
      ruta := None;
      new;
      Fetch(mount, "Error al obtener rutas");
    }

    /** `obtenerRutasHook`, `obtenerRutasPorVendedorHook` and
        `obtenerRutasPorSupervisorHook`, which differ in their fallback. */
    method Fetch(response: Outcome<seq<Ruta>>, fallback: string)
      modifies store
      ensures !store.loading
      ensures store.items == if response.Ok? then response.value else old(store.items)
      ensures store.error == if response.Ok? then old(store.error)
        else Some(ErrorText(response.message, fallback))
    {
      store.Load(response, fallback, false);
    }

    method ObtenerRutas(response: Outcome<seq<Ruta>>)
      modifies store
      ensures !store.loading
      ensures store.items == if response.Ok? then response.value else old(store.items)
      ensures store.error == if response.Ok? then old(store.error)
        else Some(ErrorText(response.message, "Error al obtener rutas"))
    {
      Fetch(response, "Error al obtener rutas");
    }

    method ObtenerRutasPorVendedor(venId: int, response: Outcome<seq<Ruta>>)
      modifies store
      ensures !store.loading
      ensures store.items == if response.Ok? then response.value else old(store.items)
      ensures store.error == if response.Ok? then old(store.error)
        else Some(ErrorText(response.message, "Error al obtener rutas por vendedor"))
    {
      Fetch(response, "Error al obtener rutas por vendedor");
    }

    method ObtenerRutasPorSupervisor(supId: int, response: Outcome<seq<Ruta>>)
      modifies store
      ensures !store.loading
      ensures store.items == if response.Ok? then response.value else old(store.items)
      ensures store.error == if response.Ok? then old(store.error)
        else Some(ErrorText(response.message, "Error al obtener rutas por supervisor"))
    {
      Fetch(response, "Error al obtener rutas por supervisor");
    }

    /** `obtenerRutaPorIdHook`: only the `ruta` slot changes; a failure
        returns null and leaves the slot as it was. */
    method ObtenerRutaPorId(id: int, response: Outcome<Ruta>) returns (r: Option<Ruta>)
      modifies this`ruta, store
      ensures !store.loading && store.items == old(store.items)
      ensures store.error == if response.Ok? then old(store.error)
        else Some(ErrorText(response.message, "Error al obtener ruta"))
      ensures ruta == if response.Ok? then Some(response.value) else old(ruta)
      ensures r == if response.Ok? then Some(response.value) else None
    {
      store.Query(response, "Error al obtener ruta", false);
      if response.Ok? {
        ruta := Some(response.value);
        r := Some(response.value);
      } else {
        r := None;
      }
    }

    method CrearRuta(response: Outcome<Ruta>) returns (r: Outcome<Ruta>)
      modifies store
      ensures !store.loading
      ensures store.items == if response.Ok? then old(store.items) + [response.value] else old(store.items)
      ensures store.error == if response.Ok? then old(store.error)
        else Some(ErrorText(response.message, "Error al crear ruta"))
      ensures r == response
    {
      store.Create(response, "Error al crear ruta", false);
      r := response;
    }

    method ActualizarRuta(id: int, response: Outcome<Ruta>) returns (r: Outcome<Ruta>)
      modifies store
      ensures !store.loading
      ensures store.items == if response.Ok? then ReplaceByKey(old(store.items), RutId, id, response.value)
        else old(store.items)
      ensures store.error == if response.Ok? then old(store.error)
        else Some(ErrorText(response.message, "Error al actualizar ruta"))
      ensures r == response
    {
      store.Update(RutId, id, response, "Error al actualizar ruta", false);
      r := response;
    }

    method DesactivarRuta(id: int, response: Outcome<string>) returns (r: Outcome<string>)
      modifies store
      ensures !store.loading
      ensures store.items == if response.Ok? then RemoveByKey(old(store.items), RutId, id) else old(store.items)
      ensures store.error == if response.Ok? then old(store.error)
        else Some(ErrorText(response.message, "Error al desactivar ruta"))
      ensures r == response
    {
      store.Remove(RutId, id, response, "Error al desactivar ruta", false);
      r := response;
    }
  }
}
