/** `useVisita`: the visits mirror. Fetches and filters replace the list and
    swallow their errors; get-by-id replaces the list with the one visit;
    create, update and disable edit the list and rethrow. */
module UseVisita {
  import opened Common
  import opened Records
  import opened KeyedList

  class VisitaHook {
    const store: EntityStore<Visita>

    constructor ()
      ensures fresh(store)
      ensures store.items == [] && !store.loading && store.error == None
    {
      store := new EntityStore();
    }

    /** The five list fetches (`obtenerTodasVisitasHook` and the
        `filtrarVisitasPor*` operations) differ only in their fallback
        message. */
    method Fetch(response: Outcome<seq<Visita>>, fallback: string)
      modifies store
      ensures !store.loading
      ensures store.items == if response.Ok? then response.value else old(store.items)
      ensures store.error == if response.Ok? then old(store.error)
        else Some(ErrorText(response.message, fallback))
    {
      store.Load(response, fallback, false);
    }

    method ObtenerTodasVisitas(response: Outcome<seq<Visita>>)
      modifies store
      ensures !store.loading
      ensures store.items == if response.Ok? then response.value else old(store.items)
      ensures store.error == if response.Ok? then old(store.error)
        else Some(ErrorText(response.message, "Error al obtener visitas"))
    {
      Fetch(response, "Error al obtener visitas");
    }

    method FiltrarPorRuta(rutaId: int, response: Outcome<seq<Visita>>)
      modifies store
      ensures !store.loading
      ensures store.items == if response.Ok? then response.value else old(store.items)
      ensures store.error == if response.Ok? then old(store.error)
        else Some(ErrorText(response.message, "Error al filtrar visitas por ruta"))
    {
      Fetch(response, "Error al filtrar visitas por ruta");
    }

    method FiltrarPorCliente(clienteId: int, response: Outcome<seq<Visita>>)
      modifies store
      ensures !store.loading
      ensures store.items == if response.Ok? then response.value else old(store.items)
      ensures store.error == if response.Ok? then old(store.error)
        else Some(ErrorText(response.message, "Error al filtrar visitas por cliente"))
    {
      Fetch(response, "Error al filtrar visitas por cliente");
    }

    method FiltrarPorVendedor(venId: int, response: Outcome<seq<Visita>>)
      modifies store
      ensures !store.loading
      ensures store.items == if response.Ok? then response.value else old(store.items)
      ensures store.error == if response.Ok? then old(store.error)
        else Some(ErrorText(response.message, "Error al filtrar visitas por vendedor"))
    {
      Fetch(response, "Error al filtrar visitas por vendedor");
    }

    method FiltrarPorSemana(venId: int, semana: int, response: Outcome<seq<Visita>>)
      modifies store
      ensures !store.loading
      ensures store.items == if response.Ok? then response.value else old(store.items)
      ensures store.error == if response.Ok? then old(store.error)
        else Some(ErrorText(response.message, "Error al filtrar visitas por semana"))
    {
      Fetch(response, "Error al filtrar visitas por semana");
    }

    /** `obtenerVisitaIdHook`: the list becomes the one fetched visit, which
        is returned; a failure returns null. */
    method ObtenerVisitaId(id: int, response: Outcome<Visita>) returns (r: Option<Visita>)
      modifies store
      ensures !store.loading
      ensures store.items == if response.Ok? then [response.value] else old(store.items)
      ensures store.error == if response.Ok? then old(store.error)
        else Some(ErrorText(response.message, "Error al obtener la visita"))
      ensures r == if response.Ok? then Some(response.value) else None
    {
      var listed := if response.Ok? then Ok([response.value]) else Fail(response.message);
      store.Load(listed, "Error al obtener la visita", false);
      r := if response.Ok? then Some(response.value) else None;
    }

    /** `crearNuevaVisita`: appends the created visit; a failure is rethrown. */
    method CrearVisita(response: Outcome<Visita>) returns (r: Outcome<Visita>)
      modifies store
      ensures !store.loading
      ensures store.items == if response.Ok? then old(store.items) + [response.value] else old(store.items)
      ensures store.error == if response.Ok? then old(store.error)
        else Some(ErrorText(response.message, "Error al crear la visita"))
      ensures r == response
    {
      store.Create(response, "Error al crear la visita", false);
      r := response;
    }

    /** `actualizarVisitaId`: the visits with key `id` become the response. */
    method ActualizarVisita(id: int, response: Outcome<Visita>) returns (r: Outcome<Visita>)
      modifies store
      ensures !store.loading
      ensures store.items == if response.Ok? then ReplaceByKey(old(store.items), VisId, id, response.value)
        else old(store.items)
      ensures store.error == if response.Ok? then old(store.error)
        else Some(ErrorText(response.message, "Error al actualizar la visita"))
      ensures r == response
    {
      store.Update(VisId, id, response, "Error al actualizar la visita", false);
      r := response;
    }

    /** `deshabilitarVisitaId`: the visits with key `id` leave the list; the
        server's message is returned. */
    method DeshabilitarVisita(id: int, response: Outcome<string>) returns (r: Outcome<string>)
      modifies store
      ensures !store.loading
      ensures store.items == if response.Ok? then RemoveByKey(old(store.items), VisId, id) else old(store.items)
      ensures store.error == if response.Ok? then old(store.error)
        else Some(ErrorText(response.message, "Error al deshabilitar la visita"))
      ensures r == response
    {
      store.Remove(VisId, id, response, "Error al deshabilitar la visita", false);
      r := response;
    }
  }
}
