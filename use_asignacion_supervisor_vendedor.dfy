/** `useAsignacionSupervisorVendedor`: the supervisor-to-vendor assignments
    mirror. Every operation clears the error first; the three queries never
    touch the list and swallow their errors. */
module UseAsignacionSupervisorVendedor {
  import opened Common
  import opened Records
  import opened KeyedList

  class AsignacionSupervisorVendedorHook {
    const store: EntityStore<AsignacionSupervisorVendedor>

    constructor (mount: Outcome<seq<AsignacionSupervisorVendedor>>)
      ensures fresh(store) && !store.loading
      ensures store.items == if mount.Ok? then mount.value else []
      ensures store.error == if mount.Ok? then None
        else Some(ErrorText(mount.message, "Error al obtener las asignaciones"))
    {
      store := new EntityStore();
      new;
      FetchAsignaciones(mount);
    }

    method FetchAsignaciones(response: Outcome<seq<AsignacionSupervisorVendedor>>)
      modifies store
      ensures !store.loading
      ensures store.items == if response.Ok? then response.value else old(store.items)
      ensures store.error == if response.Ok? then None
        else Some(ErrorText(response.message, "Error al obtener las asignaciones"))
    {
      store.Load(response, "Error al obtener las asignaciones", true);
    }

    /** `addAsignacion` resolves to nothing; a failure rethrows. */
    method AddAsignacion(response: Outcome<AsignacionSupervisorVendedor>) returns (r: Outcome<()>)
      modifies store
      ensures !store.loading
      ensures store.items == if response.Ok? then old(store.items) + [response.value] else old(store.items)
      ensures store.error == if response.Ok? then None
        else Some(ErrorText(response.message, "Error al crear la asignación"))
      ensures r == if response.Ok? then Ok(()) else Fail(response.message)
    {
      store.Create(response, "Error al crear la asignación", true);
      r := if response.Ok? then Ok(()) else Fail(response.message);
    }

    method UpdateAsignacion(id: int, response: Outcome<AsignacionSupervisorVendedor>) returns (r: Outcome<()>)
      modifies store
      ensures !store.loading
      ensures store.items == if response.Ok? then ReplaceByKey(old(store.items), AsvId, id, response.value)
        else old(store.items)
      ensures store.error == if response.Ok? then None
        else Some(ErrorText(response.message, "Error al actualizar la asignación"))
      ensures r == if response.Ok? then Ok(()) else Fail(response.message)
    {
      store.Update(AsvId, id, response, "Error al actualizar la asignación", true);
      r := if response.Ok? then Ok(()) else Fail(response.message);
    }

    method RemoveAsignacion<U>(id: int, response: Outcome<U>) returns (r: Outcome<()>)
      modifies store
      ensures !store.loading
      ensures store.items == if response.Ok? then RemoveByKey(old(store.items), AsvId, id) else old(store.items)
      ensures store.error == if response.Ok? then None
        else Some(ErrorText(response.message, "Error al desactivar la asignación"))
      ensures r == if response.Ok? then Ok(()) else Fail(response.message)
    {
      store.Remove(AsvId, id, response, "Error al desactivar la asignación", true);
      r := if response.Ok? then Ok(()) else Fail(response.message);
    }

    /** `getAsignacionById`: the record, or null on failure. */
    method GetAsignacionById(id: int, response: Outcome<AsignacionSupervisorVendedor>)
      returns (r: Option<AsignacionSupervisorVendedor>)
      modifies store
      ensures !store.loading && store.items == old(store.items)
      ensures store.error == if response.Ok? then None
        else Some(ErrorText(response.message, "Error al obtener la asignación"))
      ensures r == if response.Ok? then Some(response.value) else None
    {
      store.Query(response, "Error al obtener la asignación", true);
      r := if response.Ok? then Some(response.value) else None;
    }

    /** `getVendedoresBySupervisor`: the records, or `[]` on failure. */
    method GetVendedoresBySupervisor(supervisorId: int, response: Outcome<seq<AsignacionSupervisorVendedor>>)
      returns (r: seq<AsignacionSupervisorVendedor>)
      modifies store
      ensures !store.loading && store.items == old(store.items)
      ensures store.error == if response.Ok? then None
        else Some(ErrorText(response.message, "Error al obtener vendedores por supervisor"))
      ensures r == if response.Ok? then response.value else []
    {
      store.Query(response, "Error al obtener vendedores por supervisor", true);
      r := if response.Ok? then response.value else [];
    }

    /** `getSupervisoresByVendedor`: the records, or `[]` on failure. */
    method GetSupervisoresByVendedor(vendedorId: int, response: Outcome<seq<AsignacionSupervisorVendedor>>)
      returns (r: seq<AsignacionSupervisorVendedor>)
      modifies store
      ensures !store.loading && store.items == old(store.items)
      ensures store.error == if response.Ok? then None
        else Some(ErrorText(response.message, "Error al obtener supervisores por vendedor"))
      ensures r == if response.Ok? then response.value else []
    {
      store.Query(response, "Error al obtener supervisores por vendedor", true);
      r := if response.Ok? then response.value else [];
    }
  }
}
