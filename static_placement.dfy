/**
 * Placement mode of the main client: "Place on Map" arms it with a location
 * id, a map click asks the backend to store the click's coordinates for that
 * location, and a successful save disarms it.
 */
module StaticPlacement {
  import opened Json
  import opened Http
  import opened StaticApi

  /** `window.placementState`: unset/`null`, or `{ locationId: <the button's data-id> }`. */
  datatype PlacementState = Idle | Armed(locationId: Option<string>)

  /** The location a map click places: only a truthy pending id counts. */
  function PendingLocation(s: PlacementState): (r: Option<string>)
    ensures r.Some? <==> s.Armed? && s.locationId.Some? && s.locationId.value != ""
    ensures r.Some? ==> s.locationId == r
  {
    if s.Armed? && s.locationId.Some? && s.locationId.value != "" then s.locationId else None
  }

  /** The `set_coords` call for a click at (lat, lng): x is the longitude, y the latitude. */
  function SetCoordsRequest(locationId: string, lat: int, lng: int): Request {
    Request(Put, "/api/locations/" + locationId + "/set_coords",
            Some(Obj(map["x" := Num(lng), "y" := Num(lat)])))
  }

  /** `handleMapClick`: the request it issues, if any. */
  function ClickRequest(s: PlacementState, lat: int, lng: int): (r: Option<Request>)
    ensures r.None? <==> PendingLocation(s).None?
    ensures r.Some? ==> r.value == SetCoordsRequest(PendingLocation(s).value, lat, lng)
  {
    match PendingLocation(s)
    case None => None
    case Some(id) => Some(SetCoordsRequest(id, lat, lng))
  }

  /**
   * The place branch of `handleCardActions`: whatever was pending before, the
   * next map click saves the button's data-id, or does nothing when it is
   * missing or empty.
   */
  function Arm(s: PlacementState, datasetId: Option<string>): (r: PlacementState)
    ensures forall lat, lng :: ClickRequest(r, lat, lng) ==
              (if datasetId.Some? && datasetId.value != "" then Some(SetCoordsRequest(datasetId.value, lat, lng)) else None)
  {
    Armed(datasetId)
  }

  /**
   * When the save settles: the `.then` that clears the state runs only when
   * `handleApiCall` resolves; on any failure it rethrows and the state stays.
   */
  function Settle(s: PlacementState, reply: Reply): (r: PlacementState)
    ensures HandleApiCall(reply).Ok? ==> r == Idle
    ensures !HandleApiCall(reply).Ok? ==> r == s
  {
    if HandleApiCall(reply).Ok? then Idle else s
  }

  /** Arming twice before a click leaves only the second location pending. */
  lemma ArmingReplaces(s: PlacementState, first: Option<string>, second: string, lat: int, lng: int)
    requires second != ""
    ensures ClickRequest(Arm(Arm(s, first), Some(second)), lat, lng) == Some(SetCoordsRequest(second, lat, lng))
  {
  }

  /** A click with nothing (truthy) pending does nothing. */
  lemma IdleClickIsNoOp(lat: int, lng: int)
    ensures ClickRequest(Idle, lat, lng).None?
    ensures ClickRequest(Armed(None), lat, lng).None?
    ensures ClickRequest(Armed(Some("")), lat, lng).None?
  {
  }

  /**
   * After a failed save the same location is still pending, so the next click
   * retries it; after a successful one the next click does nothing.
   */
  lemma SettleThenClick(s: PlacementState, reply: Reply, lat: int, lng: int)
    ensures !HandleApiCall(reply).Ok? ==> ClickRequest(Settle(s, reply), lat, lng) == ClickRequest(s, lat, lng)
    ensures HandleApiCall(reply).Ok? ==> ClickRequest(Settle(s, reply), lat, lng).None?
  {
  }

  /**
   * A save that succeeds after another location was armed while it was in
   * flight clears that newer arming too: the handler does not check which
   * location it is disarming.
   */
  lemma InFlightArmingIsCleared(s: PlacementState, datasetId: Option<string>, reply: Reply)
    requires HandleApiCall(reply).Ok?
    ensures Settle(Arm(s, datasetId), reply) == Idle
  {
  }

  /** The page-level holder of `window.placementState`. */
  class PlacementMode {
    var state: PlacementState

    constructor ()
      ensures state == Idle
    {
      state := Idle;
    }

    /** A click on a "Place on Map" button carrying `datasetId`. */
    method PlaceClicked(datasetId: Option<string>)
      modifies this
      ensures state == Arm(old(state), datasetId)
    {
      state := Armed(datasetId);
    }

    /** A click on the map: the save request, sent only when a location is pending. */
    method MapClicked(lat: int, lng: int) returns (request: Option<Request>)
      ensures request.Some? <==> PendingLocation(state).Some?
      ensures request.Some? ==> request.value == SetCoordsRequest(PendingLocation(state).value, lat, lng)
    {
      if state.Armed? && state.locationId.Some? && state.locationId.value != "" {
        request := Some(SetCoordsRequest(state.locationId.value, lat, lng));
      } else {
        request := None;
      }
    }

    /** The save request settles with `reply`. */
    method SaveSettled(reply: Reply)
      modifies this
      ensures state == Settle(old(state), reply)
    {
      var outcome := HandleApiCall(reply);
      if outcome.Ok? {
        state := Idle;
      }
    }
  }
}
