/** `useCliente`: the clients mirror plus a single `cliente` slot. Nothing
    is fetched on mount. The list fetch returns its data and rethrows. */
module UseCliente {
  import opened Common
  import opened Records
  import opened KeyedList

  class ClienteHook {
    const store: EntityStore<Cliente>
    var cliente: Option<Cliente>

    constructor ()
      ensures fresh(store) && cliente == None
      ensures store.items == [] && !store.loading && store.error == None
    {
      store := new EntityStore();
      cliente := None;
    }

    method ObtenerClientes(response: Outcome<seq<Cliente>>) returns (r: Outcome<seq<Cliente>>)
      modifies store
      ensures !store.loading
      ensures store.items == if response.Ok? then response.value else old(store.items)
      ensures store.error == if response.Ok? then old(store.error)
        else Some(ErrorText(response.message, "Error al obtener clientes"))
      ensures r == response
    {
      store.Load(response, "Error al obtener clientes", false);
      r := response;
    }

    /** `obtenerClientePorIdHook`: only the `cliente` slot changes. */
    method ObtenerClientePorId(id: int, response: Outcome<Cliente>) returns (r: Option<Cliente>)
      modifies this`cliente, store
      ensures !store.loading && store.items == old(store.items)
      ensures store.error == if response.Ok? then old(store.error)
        else Some(ErrorText(response.message, "Error al obtener cliente"))
      ensures cliente == if response.Ok? then Some(response.value) else old(cliente)
      ensures r == if response.Ok? then Some(response.value) else None
    {
      store.Query(response, "Error al obtener cliente", false);
      if response.Ok? {
        cliente := Some(response.value);
        r := Some(response.value);
      } else {
        r := None;
      }
    }

    method CrearCliente(response: Outcome<Cliente>) returns (r: Outcome<Cliente>)
      modifies store
      ensures !store.loading
      ensures store.items == if response.Ok? then old(store.items) + [response.value] else old(store.items)
      ensures store.error == if response.Ok? then old(store.error)
        else Some(ErrorText(response.message, "Error al crear cliente"))
      ensures r == response
    {
      store.Create(response, "Error al crear cliente", false);
      r := response;
    }

    method ActualizarCliente(id: int, response: Outcome<Cliente>) returns (r: Outcome<Cliente>)
      modifies store
      ensures !store.loading
      ensures store.items == if response.Ok? then ReplaceByKey(old(store.items), ClId, id, response.value)
        else old(store.items)
      ensures store.error == if response.Ok? then old(store.error)
        else Some(ErrorText(response.message, "Error al actualizar cliente"))
      ensures r == response
    {
      store.Update(ClId, id, response, "Error al actualizar cliente", false);
      r := response;
    }

    /** `deshabilitarClientePorId` resolves to `true` once the server agrees. */
    method DeshabilitarCliente<U>(id: int, response: Outcome<U>) returns (r: Outcome<bool>)
      modifies store
      ensures !store.loading
      ensures store.items == if response.Ok? then RemoveByKey(old(store.items), ClId, id) else old(store.items)
      ensures store.error == if response.Ok? then old(store.error)
        else Some(ErrorText(response.message, "Error al deshabilitar cliente"))
      ensures r == if response.Ok? then Ok(true) else Fail(response.message)
    {
      store.Remove(ClId, id, response, "Error al deshabilitar cliente", false);
      r := if response.Ok? then Ok(true) else Fail(response.message);
    }
  }
}
