/** Requests and replies as the browser code sees them through `fetch`. */
module Http {
  import opened Json

  datatype Verb = Get | Post | Put | Delete

  /** A request the client issues: verb, URL and JSON body, if any. */
  datatype Request = Request(verb: Verb, url: string, body: Option<Value>)

  /**
   * What a `fetch` settles with: a transport failure (the promise rejects), or
   * a status code with the body, `None` when the body does not parse as JSON.
   */
  datatype Reply = NetworkFailure | Reply(status: int, body: Option<Value>)

  /** `response.ok`. */
  predicate IsOk(status: int) {
    200 <= status <= 299
  }
}

/** The character and location records the backend returns, as the client reads them. */
module Records {
  import opened Json

  /** `_id` is always a string (the server stringifies it); the other fields may be absent. */
  datatype Character = Character(id: string, name: string, color: Option<Value>, locationId: Option<Value>)

  datatype Location = Location(
    id: string,
    name: string,
    description: Option<Value>,
    color: Option<Value>,
    coords: Option<Value>)
}

/** The marker layer of the map widget, reduced to the list of markers it holds. */
module MapLayer {

  class LayerGroup<T> {
    var layers: seq<T>

    constructor ()
      ensures layers == []
    {
      layers := [];
    }

    method ClearLayers()
      modifies this
      ensures layers == []
    {
      layers := [];
    }

    method AddLayer(marker: T)
      modifies this
      ensures layers == old(layers) + [marker]
    {
      layers := layers + [marker];
    }
  }
}
