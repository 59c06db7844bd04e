/** `useAsignacionClienteVendedor`: the client-to-vendor assignments mirror.
    Every operation clears the error before it calls the backend, and the
    list is fetched on mount. */
module UseAsignacionClienteVendedor {
  import opened Common
  import opened Records
  import opened KeyedList

  class AsignacionClienteVendedorHook {
    const store: EntityStore<AsignacionClienteVendedor>

    constructor (mount: Outcome<seq<AsignacionClienteVendedor>>)
      ensures fresh(store) && !store.loading
      ensures store.items == if mount.Ok? then mount.value else []
      ensures store.error == if mount.Ok? then None
        else Some(ErrorText(mount.message, "Error al obtener asignaciones"))
    {
      store := new EntityStore();
      new;
      ObtenerTodasAsignaciones(mount);
    }

    method ObtenerTodasAsignaciones(response: Outcome<seq<AsignacionClienteVendedor>>)
      modifies store
      ensures !store.loading
      ensures store.items == if response.Ok? then response.value else old(store.items)
      ensures store.error == if response.Ok? then None
        else Some(ErrorText(response.message, "Error al obtener asignaciones"))
    {
      store.Load(response, "Error al obtener asignaciones", true);
    }

    method CrearAsignacion(response: Outcome<AsignacionClienteVendedor>) returns (r: Outcome<AsignacionClienteVendedor>)
      modifies store
      ensures !store.loading
      ensures store.items == if response.Ok? then old(store.items) + [response.value] else old(store.items)
      ensures store.error == if response.Ok? then None
        else Some(ErrorText(response.message, "Error al crear asignación"))
      ensures r == response
    {
      store.Create(response, "Error al crear asignación", true);
      r := response;
    }

    method ActualizarAsignacion(id: int, response: Outcome<AsignacionClienteVendedor>)
      returns (r: Outcome<AsignacionClienteVendedor>)
      modifies store
      ensures !store.loading
      ensures store.items == if response.Ok? then ReplaceByKey(old(store.items), AsgId, id, response.value)
        else old(store.items)
      ensures store.error == if response.Ok? then None
        else Some(ErrorText(response.message, "Error al actualizar asignación"))
      ensures r == response
    {
      store.Update(AsgId, id, response, "Error al actualizar asignación", true);
      r := response;
    }

    /** `desactivarAsignacionHook` resolves to nothing; a failure rethrows. */
    method DesactivarAsignacion<U>(id: int, response: Outcome<U>) returns (r: Outcome<()>)
      modifies store
      ensures !store.loading
      ensures store.items == if response.Ok? then RemoveByKey(old(store.items), AsgId, id) else old(store.items)
      ensures store.error == if response.Ok? then None
        else Some(ErrorText(response.message, "Error al desactivar asignación"))
      ensures r == if response.Ok? then Ok(()) else Fail(response.message)
    {
      store.Remove(AsgId, id, response, "Error al desactivar asignación", true);
      r := if response.Ok? then Ok(()) else Fail(response.message);
    }

    method ObtenerAsignacionPorId(id: int, response: Outcome<AsignacionClienteVendedor>)
      returns (r: Option<AsignacionClienteVendedor>)
      modifies store
      ensures !store.loading && store.items == old(store.items)
      ensures store.error == if response.Ok? then None
        else Some(ErrorText(response.message, "Error al obtener asignación por ID"))
      ensures r == if response.Ok? then Some(response.value) else None
    {
      store.Query(response, "Error al obtener asignación por ID", true);
      r := if response.Ok? then Some(response.value) else None;
    }
  }
}
