/** `useDireccionCliente`: the client addresses mirror plus a single
    `direccion` slot. All addresses are fetched on mount. */
module UseDireccionCliente {
  import opened Common
  import opened Records
  import opened KeyedList

  class DireccionClienteHook {
    const store: EntityStore<DireccionCliente>
    var direccion: Option<DireccionCliente>

    /** Mounting runs `obtenerTodasDireccionesHook`. */
    constructor (mount: Outcome<seq<DireccionCliente>>)
      ensures fresh(store) && direccion == None && !store.loading
      ensures store.items == if mount.Ok? then mount.value else []
      ensures store.error == if mount.Ok? then None
        else Some(ErrorText(mount.message, "Error al obtener direcciones"))
    {
      store := new EntityStore();
      direccion := None;
      new;
      ObtenerTodasDirecciones(mount);
    }

    method ObtenerTodasDirecciones(response: Outcome<seq<DireccionCliente>>)
      modifies store
      ensures !store.loading
      ensures store.items == if response.Ok? then response.value else old(store.items)
      ensures store.error == if response.Ok? then old(store.error)
        else Some(ErrorText(response.message, "Error al obtener direcciones"))
    {
      store.Load(response, "Error al obtener direcciones", false);
    }

    method ObtenerDireccionesPorCliente(clId: int, response: Outcome<seq<DireccionCliente>>)
      modifies store
      ensures !store.loading
      ensures store.items == if response.Ok? then response.value else old(store.items)
      ensures store.error == if response.Ok? then old(store.error)
        else Some(ErrorText(response.message, "Error al obtener direcciones del cliente"))
    {
      store.Load(response, "Error al obtener direcciones del cliente", false);
    }

    /** `obtenerDireccionPorIdHook`: sets the slot and returns the address;
        a failure returns undefined and leaves the slot alone. */
    method ObtenerDireccionPorId(id: int, response: Outcome<DireccionCliente>) returns (r: Option<DireccionCliente>)
      modifies this`direccion, store
      ensures !store.loading && store.items == old(store.items)
      ensures store.error == if response.Ok? then old(store.error)
        else Some(ErrorText(response.message, "Error al obtener la dirección"))
      ensures direccion == if response.Ok? then Some(response.value) else old(direccion)
      ensures r == if response.Ok? then Some(response.value) else None
    {
      store.Query(response, "Error al obtener la dirección", false);
      if response.Ok? {
        direccion := Some(response.value);
        r := Some(response.value);
      } else {
        r := None;
      }
    }

    method CrearDireccion(response: Outcome<DireccionCliente>) returns (r: Outcome<DireccionCliente>)
      modifies store
      ensures !store.loading
      ensures store.items == if response.Ok? then old(store.items) + [response.value] else old(store.items)
      ensures store.error == if response.Ok? then old(store.error)
        else Some(ErrorText(response.message, "Error al crear la dirección"))
      ensures r == response
    {
      store.Create(response, "Error al crear la dirección", false);
      r := response;
    }

    method ActualizarDireccion(id: int, response: Outcome<DireccionCliente>) returns (r: Outcome<DireccionCliente>)
      modifies store
      ensures !store.loading
      ensures store.items == if response.Ok? then ReplaceByKey(old(store.items), DirClId, id, response.value)
        else old(store.items)
      ensures store.error == if response.Ok? then old(store.error)
        else Some(ErrorText(response.message, "Error al actualizar la dirección"))
      ensures r == response
    {
      store.Update(DirClId, id, response, "Error al actualizar la dirección", false);
      r := response;
    }

    method DesactivarDireccion<U>(id: int, response: Outcome<U>) returns (r: Outcome<U>)
      modifies store
      ensures !store.loading
      ensures store.items == if response.Ok? then RemoveByKey(old(store.items), DirClId, id) else old(store.items)
      ensures store.error == if response.Ok? then old(store.error)
        else Some(ErrorText(response.message, "Error al desactivar la dirección"))
      ensures r == response
    {
      store.Remove(DirClId, id, response, "Error al desactivar la dirección", false);
      r := response;
    }
  }
}
