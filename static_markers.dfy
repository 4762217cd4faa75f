/**
 * `displayLocationMarkers` of the main client: the layer is cleared, then
 * every location whose `coords` is truthy gets a marker at `[coords.y, coords.x]`.
 * Building the popup calls `description.substring`, so a placed location
 * whose description is not a string throws and stops the loop there.
 */
module StaticMarkers {
  import opened Json
  import opened Records
  import opened MapLayer

  const MarkerColor := "#00d1ff"
  const ExcerptLength := 100

  /** A marker: its `[lat, lng]` as read from the record, its colour and its popup text. */
  datatype Marker = Marker(lat: Option<Value>, lng: Option<Value>, color: Value, title: string, excerpt: string)

  /** The markers on the layer and whether the loop ran to the end without throwing. */
  datatype Drawn = Drawn(markers: seq<Marker>, completed: bool)

  predicate Placed(l: Location) {
    Truthy(l.coords)
  }

  /** `description.substring(...)` succeeds only on a string. */
  predicate Describable(l: Location) {
    l.description.Some? && l.description.value.Str?
  }

  function Excerpt(s: string): (r: string)
    ensures |r| <= ExcerptLength && r <= s
    ensures |s| <= ExcerptLength ==> r == s
    ensures |s| > ExcerptLength ==> |r| == ExcerptLength
  {
    if |s| <= ExcerptLength then s else s[..ExcerptLength]
  }

  function MarkerOf(l: Location): (m: Marker)
    requires Placed(l) && Describable(l)
    ensures m.lat == Prop(l.coords.value, "y") && m.lng == Prop(l.coords.value, "x")
  {
    Marker(Prop(l.coords.value, "y"), Prop(l.coords.value, "x"),
           if Truthy(l.color) then l.color.value else Str(MarkerColor),
           l.name, Excerpt(l.description.value.s))
  }

  /** The layer after the loop has visited `ls` in order (unfolded from the last location). */
  function DrawMarkers(ls: seq<Location>): (d: Drawn)
    ensures |d.markers| <= |ls|
  {
    if ls == [] then Drawn([], true)
    else
      var before := DrawMarkers(ls[..|ls| - 1]);
      var l := ls[|ls| - 1];
      if !before.completed || !Placed(l) then before
      else if !Describable(l) then Drawn(before.markers, false)
      else Drawn(before.markers + [MarkerOf(l)], true)
  }

  /** The number of placed locations. */
  function PlacedCount(ls: seq<Location>): nat {
    if ls == [] then 0 else PlacedCount(ls[..|ls| - 1]) + (if Placed(ls[|ls| - 1]) then 1 else 0)
  }

  /**
   * When every placed location has a string description the loop completes,
   * with one marker per placed location (with `UnplacedGetNoMarker`: exactly those).
   */
  lemma {:induction false} DrawnExactlyPlaced(ls: seq<Location>)
    requires forall i :: 0 <= i < |ls| && Placed(ls[i]) ==> Describable(ls[i])
    ensures DrawMarkers(ls).completed
    ensures |DrawMarkers(ls).markers| == PlacedCount(ls)
    ensures forall i :: 0 <= i < |ls| && Placed(ls[i]) ==> MarkerOf(ls[i]) in DrawMarkers(ls).markers
  {
    if ls != [] {
      var init := ls[..|ls| - 1];
      assert forall i :: 0 <= i < |init| ==> init[i] == ls[i];
      DrawnExactlyPlaced(init);
    }
  }

  /** Every marker on the layer is that of a placed location: one without coordinates never gets one. */
  lemma {:induction false} UnplacedGetNoMarker(ls: seq<Location>)
    ensures forall m :: m in DrawMarkers(ls).markers ==>
              exists i :: 0 <= i < |ls| && Placed(ls[i]) && Describable(ls[i]) && m == MarkerOf(ls[i])
  {
    if ls != [] {
      var init := ls[..|ls| - 1];
      assert forall i :: 0 <= i < |init| ==> init[i] == ls[i];
      UnplacedGetNoMarker(init);
    }
  }

  /** Once the loop has thrown, the later locations change nothing. */
  lemma {:induction false} ThrowIsFinal(ls: seq<Location>, k: nat)
    requires k <= |ls|
    requires !DrawMarkers(ls[..k]).completed
    ensures DrawMarkers(ls) == DrawMarkers(ls[..k])
    decreases |ls| - k
  {
    if k < |ls| {
      assert ls[..k + 1][..k] == ls[..k];
      ThrowIsFinal(ls, k + 1);
    } else {
      assert ls[..k] == ls;
    }
  }

  /** The loop itself; returns false where the source throws. */
  method DisplayLocationMarkers(layer: LayerGroup<Marker>, locations: seq<Location>) returns (completed: bool)
    modifies layer
    ensures Drawn(layer.layers, completed) == DrawMarkers(locations)
  {
    layer.ClearLayers();
    var i := 0;
    while i < |locations|
      invariant 0 <= i <= |locations|
      invariant Drawn(layer.layers, true) == DrawMarkers(locations[..i])
    {
      var l := locations[i];
      assert locations[..i + 1][..i] == locations[..i];
      if Truthy(l.coords) {
        if !(l.description.Some? && l.description.value.Str?) {
          ThrowIsFinal(locations, i + 1);
          return false;
        }
        layer.AddLayer(MarkerOf(l));
      }
      i := i + 1;
    }
    assert locations[..i] == locations;
    completed := true;
  }
}
