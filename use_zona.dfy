/** `useZona`: the zones mirror. An update is keyed on the id of the zone
    the server returns, not on the id the caller passed. */
module UseZona {
  import opened Common
  import opened Records
  import opened KeyedList

  class ZonaHook {
    const store: EntityStore<Zona>

    constructor ()
      ensures fresh(store)
      ensures store.items == [] && !store.loading && store.error == None
    {
      store := new EntityStore();
    }

    method ObtenerZonas(response: Outcome<seq<Zona>>) returns (r: Outcome<seq<Zona>>)
      modifies store
      ensures !store.loading
      ensures store.items == if response.Ok? then response.value else old(store.items)
      ensures store.error == if response.Ok? then old(store.error)
        else Some(ErrorText(response.message, "Error al obtener zonas"))
      ensures r == response
    {
      store.Load(response, "Error al obtener zonas", false);
      r := response;
    }

    method CrearZona(response: Outcome<Zona>) returns (r: Outcome<Zona>)
      modifies store
      ensures !store.loading
      ensures store.items == if response.Ok? then old(store.items) + [response.value] else old(store.items)
      ensures store.error == if response.Ok? then old(store.error)
        else Some(ErrorText(response.message, "Error al crear zona"))
      ensures r == response
    {
      store.Create(response, "Error al crear zona", false);
      r := response;
    }

    /** `actualizarZonaId`: the server answers `{ mensaje, zona }`; the zones
        whose id is `zona.zonId` become `zona`, which is returned. The `id`
        argument only addresses the request. */
    method ActualizarZona(id: int, response: Outcome<ZonaActualizada>) returns (r: Outcome<Zona>)
      modifies store
      ensures !store.loading
      ensures store.items == if response.Ok?
        then ReplaceByKey(old(store.items), ZonId, response.value.zona.zonId, response.value.zona)
        else old(store.items)
      ensures store.error == if response.Ok? then old(store.error)
        else Some(ErrorText(response.message, "Error al actualizar zona"))
      ensures r == if response.Ok? then Ok(response.value.zona) else Fail(response.message)
    {
      store.Begin(false);
      match response {
        case Ok(answer) =>
          store.ReplaceWhere(ZonId, answer.zona.zonId, answer.zona);
          r := Ok(answer.zona);
        case Fail(m) =>
          store.Failed(m, "Error al actualizar zona");
          r := Fail(m);
      }
      store.SetLoading(false);
    }

    method DeshabilitarZona<U>(id: int, response: Outcome<U>) returns (r: Outcome<bool>)
      modifies store
      ensures !store.loading
      ensures store.items == if response.Ok? then RemoveByKey(old(store.items), ZonId, id) else old(store.items)
      ensures store.error == if response.Ok? then old(store.error)
        else Some(ErrorText(response.message, "Error al deshabilitar zona"))
      ensures r == if response.Ok? then Ok(true) else Fail(response.message)
    {
      store.Remove(ZonId, id, response, "Error al deshabilitar zona", false);
      r := if response.Ok? then Ok(true) else Fail(response.message);
    }

    /** `obtenerZonaPorIdHook`: never touches the list; a failure returns
        undefined. */
    method ObtenerZonaPorId(id: int, response: Outcome<Zona>) returns (r: Option<Zona>)
      modifies store
      ensures !store.loading && store.items == old(store.items)
      ensures store.error == if response.Ok? then old(store.error)
        else Some(ErrorText(response.message, "Error al obtener zona por ID"))
      ensures r == if response.Ok? then Some(response.value) else None
    {
      store.Query(response, "Error al obtener zona por ID", false);
      r := if response.Ok? then Some(response.value) else None;
    }
  }

  /** Because the update is keyed on the returned zone, a response for a
      different zone than the one requested leaves the requested zone in
      place and rewrites the returned one instead. */
  lemma UpdateKeyedOnResponse(s: seq<Zona>, id: int, z: Zona, i: int)
    requires 0 <= i < |s| && s[i].zonId == id && z.zonId != id
    ensures ReplaceByKey(s, ZonId, z.zonId, z)[i] == s[i]
  {
  }
}
