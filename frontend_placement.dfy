/** Where the standalone client sends its requests. */
module FrontendApi {
  const ApiBaseUrl := "http://localhost:5001"
}

/**
 * Placement mode of the standalone client: a "Place on Map" click stores the
 * location's id and name in the page-wide placement state, a map click with a
 * pending id sends its coordinates to the backend, and only a save whose
 * reply is read through to its `message` clears the state.
 */
module FrontendPlacement {
  import opened Json
  import opened Http
  import opened FrontendApi

  const SaveFailedText := "Failed to save coordinates."

  /** The `set_coords` call for a click at (lat, lng): x is the longitude, y the latitude. */
  function SetCoordsRequest(locationId: string, lat: int, lng: int): Request {
    Request(Put, ApiBaseUrl + "/api/locations/" + locationId + "/set_coords",
            Some(Obj(map["x" := Num(lng), "y" := Num(lat)])))
  }

  /**
   * How a save settles. `FailedStatus` alerts "Failed to save coordinates.";
   * `FailedOther` alerts the message of an error the runtime raised (a body that
   * is not JSON, a `null` body read for `.message`, a transport failure).
   */
  datatype SaveResult = Saved | FailedStatus | FailedOther

  function SaveOutcome(reply: Reply): (r: SaveResult)
    ensures r == Saved <==> reply.Reply? && IsOk(reply.status) && reply.body.Some? && reply.body.value != Null
    ensures r == FailedStatus <==> reply.Reply? && !IsOk(reply.status)
  {
    match reply
    case NetworkFailure => FailedOther
    case Reply(status, body) =>
      if !IsOk(status) then FailedStatus
      else if body.None? || body.value == Null then FailedOther
      else Saved
  }

  /** The alert shown for a failed save, when its text is the client's own. */
  function SaveAlert(r: SaveResult): (text: Option<string>)
    ensures text == Some(SaveFailedText) <==> r == FailedStatus
    ensures r == Saved ==> text.None?
  {
    if r == FailedStatus then Some(SaveFailedText) else None
  }

  /** `placementState`: the pending location's id and name (`null` as `None`). */
  class PlacementState {
    var locationId: Option<string>
    var locationName: Option<string>

    constructor ()
      ensures locationId.None? && locationName.None?
    {
      locationId := None;
      locationName := None;
    }

    /** The location a map click places: only a truthy pending id counts. */
    function Pending(): (r: Option<string>)
      reads this
      ensures r.Some? <==> locationId.Some? && locationId.value != ""
      ensures r.Some? ==> r == locationId
    {
      if locationId.Some? && locationId.value != "" then locationId else None
    }

    /**
     * A "Place on Map" click: `dataId` is the button's `data-id` (`None` when
     * absent), `name` the card heading's text. Both replace whatever was pending.
     */
    method PlaceClicked(dataId: Option<string>, name: string)
      modifies this
      ensures locationId == dataId && locationName == Some(name)
    {
      locationId := dataId;
      locationName := Some(name);
    }

    /** A map click: the save request, sent only when a location is pending; the state is untouched. */
    method MapClicked(lat: int, lng: int) returns (request: Option<Request>)
      ensures request.Some? <==> Pending().Some?
      ensures request.Some? ==> request.value == SetCoordsRequest(Pending().value, lat, lng)
    {
      if locationId.Some? && locationId.value != "" {
        request := Some(SetCoordsRequest(locationId.value, lat, lng));
      } else {
        request := None;
      }
    }

    /** The save request settles with `reply`: placement mode ends only on success. */
    method SaveSettled(reply: Reply) returns (result: SaveResult)
      modifies this
      ensures result == SaveOutcome(reply)
      ensures result == Saved ==> locationId.None? && locationName.None?
      ensures result != Saved ==> locationId == old(locationId) && locationName == old(locationName)
    {
      result := SaveOutcome(reply);
      if result == Saved {
        locationId := None;
        locationName := None;
      }
    }
  }

  /** Arming two locations before a click leaves only the second one pending. */
  method ArmTwiceThenClick(first: Option<string>, firstName: string, second: string, secondName: string,
                           lat: int, lng: int) returns (request: Option<Request>)
    requires second != ""
    ensures request == Some(SetCoordsRequest(second, lat, lng))
  {
    var state := new PlacementState();
    state.PlaceClicked(first, firstName);
    state.PlaceClicked(Some(second), secondName);
    request := state.MapClicked(lat, lng);
  }

  /**
   * A failed save leaves the location pending, so the next click retries the
   * same location; after a successful save the next click sends nothing.
   */
  method ClickSettleClick(id: string, name: string, reply: Reply, lat: int, lng: int, lat2: int, lng2: int)
    returns (first: Option<Request>, second: Option<Request>)
    requires id != ""
    ensures first == Some(SetCoordsRequest(id, lat, lng))
    ensures SaveOutcome(reply) == Saved ==> second.None?
    ensures SaveOutcome(reply) != Saved ==> second == Some(SetCoordsRequest(id, lat2, lng2))
  {
    var state := new PlacementState();
    state.PlaceClicked(Some(id), name);
    first := state.MapClicked(lat, lng);
    var _ := state.SaveSettled(reply);
    second := state.MapClicked(lat2, lng2);
  }

  /** A button without a `data-id` arms nothing: the following click is ignored. */
  method ArmWithoutIdThenClick(name: string, lat: int, lng: int) returns (request: Option<Request>)
    ensures request.None?
  {
    var state := new PlacementState();
    state.PlaceClicked(None, name);
    request := state.MapClicked(lat, lng);
  }
}
