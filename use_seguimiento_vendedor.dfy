/** `useSeguimientoVendedor`: the vendor tracking points mirror. Both
    fetches replace the list and swallow errors; create appends and
    rethrows. */
module UseSeguimientoVendedor {
  import opened Common
  import opened Records
  import opened KeyedList

  class SeguimientoVendedorHook {
    const store: EntityStore<SeguimientoVendedor>

    constructor ()
      ensures fresh(store)
      ensures store.items == [] && !store.loading && store.error == None
    {
      store := new EntityStore();
    }

    method ObtenerTodosSeguimientos(response: Outcome<seq<SeguimientoVendedor>>)
      modifies store
      ensures !store.loading
      ensures store.items == if response.Ok? then response.value else old(store.items)
      ensures store.error == if response.Ok? then old(store.error)
        else Some(ErrorText(response.message, "Error al obtener seguimientos"))
    {
      store.Load(response, "Error al obtener seguimientos", false);
    }

    /** `obtenerSeguimientosUnVendedorHook`: the list becomes the points the
        server returns for vendor `venId`. */
    method ObtenerSeguimientosUnVendedor(venId: int, response: Outcome<seq<SeguimientoVendedor>>)
      modifies store
      ensures !store.loading
      ensures store.items == if response.Ok? then response.value else old(store.items)
      ensures store.error == if response.Ok? then old(store.error)
        else Some(ErrorText(response.message, "Error al obtener seguimientos del vendedor"))
    {
      store.Load(response, "Error al obtener seguimientos del vendedor", false);
    }

    method CrearSeguimiento(response: Outcome<SeguimientoVendedor>) returns (r: Outcome<SeguimientoVendedor>)
      modifies store
      ensures !store.loading
      ensures store.items == if response.Ok? then old(store.items) + [response.value] else old(store.items)
      ensures store.error == if response.Ok? then old(store.error)
        else Some(ErrorText(response.message, "Error al crear seguimiento"))
      ensures r == response
    {
      store.Create(response, "Error al crear seguimiento", false);
      r := response;
    }
  }
}
