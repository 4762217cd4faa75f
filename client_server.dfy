/**
 * How the clients' requests meet the backend's routes: the delete URL the
 * standalone client builds is routed to the matching table, the bodies the
 * clients send pass the routes' validation, and coordinates saved by a map
 * click come back as a marker at the clicked point.
 */
module ClientServer {
  import opened Json
  import opened Http
  import opened Records
  import opened FrontendApi
  import FrontendActions
  import FrontendPlacement
  import FrontendCards
  import StaticPlacement
  import StaticMarkers
  import opened Backend

  /** The backend table a client's `data-type` names. */
  function TableOfKind(kind: string): (r: Option<Table>)
    ensures r == Some(Characters) <==> kind == "character"
    ensures r == Some(Locations) <==> kind == "location"
  {
    if kind == "character" then Some(Characters)
    else if kind == "location" then Some(Locations)
    else None
  }

  /** A confirmed delete of a character or location card reaches that table's delete route with the card's id. */
  lemma DeleteClickReachesRoute(id: string, kind: string)
    requires TableOfKind(kind).Some? && Segment(id)
    ensures var e := FrontendActions.DeleteClick(Some(id), Some(kind), true);
      && e.Requested? && e.request.verb == Delete
      && exists path :: e.request.url == ApiBaseUrl + path &&
                        RouteDelete(path) == Some(DeleteTarget(TableOfKind(kind).value, id))
  {
    var table := TableOfKind(kind).value;
    var path := FrontendActions.DeletePath(kind, id);
    assert path == TablePath(table) + id;
    RouteDeleteRoundTrip(table, id);
  }

  /** The backend's reading of a stored location, as the clients receive it. */
  function AsLocation(d: Doc, name: string): (l: Location)
    ensures l.id == d.id && l.name == name
    ensures l.coords.Some? <==> "coords" in d.fields
    ensures l.coords.Some? ==> l.coords.value == d.fields["coords"]
  {
    Location(d.id, name,
             if "description" in d.fields then Some(d.fields["description"]) else None,
             if "color" in d.fields then Some(d.fields["color"]) else None,
             if "coords" in d.fields then Some(d.fields["coords"]) else None)
  }

  /**
   * Assigning a location from the drop-down: the body the client sends passes
   * `link_character_location`'s check, and the character then holds the
   * selected id, so its card shows that location.
   */
  lemma AssignIsStored(t: Tables, characterId: string, selected: string)
    requires selected != "" && IsObjectIdText(characterId)
    requires IndexOf(t.characters, ParseObjectId(characterId).value) >= 0
    ensures var e := FrontendActions.AssignClick(characterId, selected);
      var o := LinkLocationRoute(t, true, characterId, e.request.body);
      && e.AssignRequest?
      && o.response.status == 200
      && o.tables.characters[IndexOf(t.characters, ParseObjectId(characterId).value)].fields["location_id"] == Str(selected)
  {
  }

  /**
   * The round trip of placement in the standalone client: a map click at
   * (lat, lng) for a stored location is saved with x = lng and y = lat, and the
   * marker drawn for the reloaded location sits at [lat, lng].
   */
  lemma FrontendMarkerLandsWhereClicked(t: Tables, id: string, name: string, lat: int, lng: int)
    requires IsObjectId(id) && IndexOf(t.locations, id) >= 0
    ensures var o := SetCoordsRoute(t, true, id, FrontendPlacement.SetCoordsRequest(id, lat, lng).body);
      var i := IndexOf(t.locations, id);
      && o.response.status == 200
      && FrontendCards.HasPin(AsLocation(o.tables.locations[i], name))
      && FrontendCards.PinOf(AsLocation(o.tables.locations[i], name)) == FrontendCards.Pin(Some(Num(lat)), Some(Num(lng)), name)
  {
    ObjectIdRoundTrip(id);
  }

  /**
   * The same round trip in the main client, for a location with a text
   * description: the marker is placed at [lat, lng].
   */
  lemma StaticMarkerLandsWhereClicked(t: Tables, id: string, name: string, lat: int, lng: int)
    requires IsObjectId(id) && IndexOf(t.locations, id) >= 0
    requires var d := t.locations[IndexOf(t.locations, id)]; "description" in d.fields && d.fields["description"].Str?
    ensures var body := StaticPlacement.SetCoordsRequest(id, lat, lng).body;
      var o := SetCoordsRoute(t, true, id, body);
      var l := AsLocation(o.tables.locations[IndexOf(t.locations, id)], name);
      && o.response.status == 200
      && StaticMarkers.Placed(l) && StaticMarkers.Describable(l)
      && StaticMarkers.MarkerOf(l).lat == Some(Num(lat))
      && StaticMarkers.MarkerOf(l).lng == Some(Num(lng))
  {
    ObjectIdRoundTrip(id);
  }
}
