/**
 * What the standalone client renders from the record lists: each character
 * card's location label and location drop-down, the order of the cards, and
 * the map markers of the placed locations.
 */
module FrontendCards {
  import opened Json
  import opened Records
  import opened MapLayer

  const NotAssigned := "Not Assigned"
  const PlaceholderText := "-- Select a location --"

  /** `loc._id === character.location_id`: only a string equal to the id matches. */
  predicate Matches(l: Location, c: Character) {
    c.locationId == Some(Str(l.id))
  }

  /** The index `locations.find(...)` stops at, or -1. */
  function FirstMatch(c: Character, ls: seq<Location>): (r: int)
    ensures -1 <= r < |ls|
    ensures r >= 0 ==> Matches(ls[r], c) && forall j :: 0 <= j < r ==> !Matches(ls[j], c)
    ensures r == -1 <==> forall j :: 0 <= j < |ls| ==> !Matches(ls[j], c)
  {
    if ls == [] then -1
    else if Matches(ls[0], c) then 0
    else
      var k := FirstMatch(c, ls[1..]);
      assert forall j :: 1 <= j < |ls| ==> ls[j] == ls[1..][j - 1];
      if k == -1 then -1 else k + 1
  }

  /** `assignedLocation`. */
  function AssignedLocation(c: Character, ls: seq<Location>): (r: Option<Location>)
    ensures r.Some? ==> r.value in ls && Matches(r.value, c)
    ensures r.None? <==> forall l :: l in ls ==> !Matches(l, c)
  {
    var i := FirstMatch(c, ls);
    if i == -1 then None else Some(ls[i])
  }

  /** The text after "Location:" on a character card. */
  function LocationLabel(c: Character, ls: seq<Location>): (s: string)
    ensures AssignedLocation(c, ls).None? ==> s == NotAssigned
    ensures AssignedLocation(c, ls).Some? ==> s == AssignedLocation(c, ls).value.name
  {
    match AssignedLocation(c, ls)
    case None => NotAssigned
    case Some(l) => l.name
  }

  /** A character linked to an id no listed location has is shown as not assigned. */
  lemma DanglingLinkNotAssigned(c: Character, ls: seq<Location>, target: string)
    requires c.locationId == Some(Str(target))
    requires forall l :: l in ls ==> l.id != target
    ensures LocationLabel(c, ls) == NotAssigned
  {
  }

  /** One `<option>` of the drop-down. */
  datatype OptionTag = OptionTag(value: string, selected: bool, text: string)

  const Placeholder := OptionTag("", false, PlaceholderText)

  function OptionOf(c: Character, l: Location): OptionTag {
    OptionTag(l.id, Matches(l, c), l.name)
  }

  /** The placeholder, then one option per location in order (unfolded from the last location). */
  function OptionsFor(c: Character, ls: seq<Location>): (r: seq<OptionTag>)
    ensures |r| == |ls| + 1 && r[0] == Placeholder
    ensures forall i :: 0 <= i < |ls| ==> r[i + 1] == OptionOf(c, ls[i])
  {
    if ls == [] then [Placeholder] else OptionsFor(c, ls[..|ls| - 1]) + [OptionOf(c, ls[|ls| - 1])]
  }

  /** The `forEach` that appends the options. */
  method BuildLocationOptions(c: Character, ls: seq<Location>) returns (options: seq<OptionTag>)
    ensures options == OptionsFor(c, ls)
  {
    options := [Placeholder];
    var i := 0;
    while i < |ls|
      invariant 0 <= i <= |ls|
      invariant options == OptionsFor(c, ls[..i])
    {
      assert ls[..i + 1][..i] == ls[..i];
      var l := ls[i];
      options := options + [OptionTag(l.id, c.locationId == Some(Str(l.id)), l.name)];
      i := i + 1;
    }
    assert ls[..i] == ls;
  }

  /** The drop-down and the label agree: some option is selected exactly when a location is assigned. */
  lemma SelectedIffAssigned(c: Character, ls: seq<Location>)
    ensures (exists i :: 1 <= i < |OptionsFor(c, ls)| && OptionsFor(c, ls)[i].selected) <==>
            AssignedLocation(c, ls).Some?
  {
    var opts := OptionsFor(c, ls);
    var k := FirstMatch(c, ls);
    if k >= 0 {
      assert opts[k + 1] == OptionOf(c, ls[k]);
    } else {
      forall i | 1 <= i < |opts|
        ensures !opts[i].selected
      {
        assert opts[i] == OptionOf(c, ls[i - 1]);
      }
    }
  }

  /** The first selected option is the assigned location's, and carries the label's text. */
  lemma FirstSelectedIsLabel(c: Character, ls: seq<Location>)
    requires AssignedLocation(c, ls).Some?
    ensures var k := FirstMatch(c, ls) + 1;
      && OptionsFor(c, ls)[k].selected
      && OptionsFor(c, ls)[k].text == LocationLabel(c, ls)
      && forall j :: 1 <= j < k ==> !OptionsFor(c, ls)[j].selected
  {
    var opts := OptionsFor(c, ls);
    var k := FirstMatch(c, ls);
    assert opts[k + 1] == OptionOf(c, ls[k]);
    forall j | 1 <= j < k + 1
      ensures !opts[j].selected
    {
      assert opts[j] == OptionOf(c, ls[j - 1]);
    }
  }

  /** A character card, reduced to what it shows about locations. */
  datatype Card = Card(characterId: string, locationLabel: string, options: seq<OptionTag>)

  /** The character list: the empty message, or the cards, newest (last) first. */
  datatype CharacterList = NoCharacters | Cards(cards: seq<Card>)

  function CardOf(c: Character, ls: seq<Location>): Card {
    Card(c.id, LocationLabel(c, ls), OptionsFor(c, ls))
  }

  /** `characters.reverse().forEach(...)`. */
  function CharacterListView(cs: seq<Character>, ls: seq<Location>): (v: CharacterList)
    ensures v.NoCharacters? <==> cs == []
    ensures v.Cards? ==> |v.cards| == |cs|
    ensures v.Cards? ==> forall i :: 0 <= i < |cs| ==> v.cards[i] == CardOf(cs[|cs| - 1 - i], ls)
  {
    if cs == [] then NoCharacters else Cards(ReversedCards(cs, ls))
  }

  function ReversedCards(cs: seq<Character>, ls: seq<Location>): (r: seq<Card>)
    ensures |r| == |cs|
    ensures forall i :: 0 <= i < |cs| ==> r[i] == CardOf(cs[|cs| - 1 - i], ls)
  {
    if cs == [] then [] else ReversedCards(cs[1..], ls) + [CardOf(cs[0], ls)]
  }

  /** A map marker: `[coords.y, coords.x]` as read (possibly `undefined`) and the popup's name. */
  datatype Pin = Pin(lat: Option<Value>, lng: Option<Value>, title: string)

  /** `location.coords && location.coords.x !== null && location.coords.y !== null`. */
  predicate HasPin(l: Location) {
    Truthy(l.coords) && Prop(l.coords.value, "x") != Some(Null) && Prop(l.coords.value, "y") != Some(Null)
  }

  function PinOf(l: Location): Pin
    requires HasPin(l)
  {
    Pin(Prop(l.coords.value, "y"), Prop(l.coords.value, "x"), l.name)
  }

  /** The markers after the loop has visited `ls` in order (unfolded from the last location). */
  function PinsFor(ls: seq<Location>): (ps: seq<Pin>)
    ensures |ps| <= |ls|
    ensures forall p :: p in ps ==> exists i :: 0 <= i < |ls| && HasPin(ls[i]) && p == PinOf(ls[i])
    ensures forall i :: 0 <= i < |ls| && HasPin(ls[i]) ==> PinOf(ls[i]) in ps
  {
    if ls == [] then []
    else
      var before := PinsFor(ls[..|ls| - 1]);
      assert forall i :: 0 <= i < |ls| - 1 ==> ls[i] == ls[..|ls| - 1][i];
      var l := ls[|ls| - 1];
      if HasPin(l) then before + [PinOf(l)] else before
  }

  /** The number of locations that get a marker. */
  function PinnedCount(ls: seq<Location>): nat {
    if ls == [] then 0 else PinnedCount(ls[..|ls| - 1]) + (if HasPin(ls[|ls| - 1]) then 1 else 0)
  }

  /** Exactly one marker per location that passes the filter. */
  lemma {:induction false} PinsCount(ls: seq<Location>)
    ensures |PinsFor(ls)| == PinnedCount(ls)
  {
    if ls != [] {
      PinsCount(ls[..|ls| - 1]);
    }
  }

  /**
   * The filter compares with `null` only: coordinates stored with one axis
   * missing pass it, and the location is handed to `L.marker` with that axis
   * `undefined`.
   */
  lemma MissingAxisPassesFilter(l: Location, y: int)
    requires l.coords == Some(Obj(map["y" := Num(y)]))
    ensures PinsFor([l]) == [Pin(Some(Num(y)), None, l.name)]
  {
    assert HasPin(l);
    assert [l][..0] == [];
  }

  /** `displayLocationMarkers`. */
  method DisplayLocationMarkers(layer: LayerGroup<Pin>, locations: seq<Location>)
    modifies layer
    ensures layer.layers == PinsFor(locations)
  {
    layer.ClearLayers();
    var i := 0;
    while i < |locations|
      invariant 0 <= i <= |locations|
      invariant layer.layers == PinsFor(locations[..i])
    {
      var l := locations[i];
      assert locations[..i + 1][..i] == locations[..i];
      if Truthy(l.coords) && Prop(l.coords.value, "x") != Some(Null) && Prop(l.coords.value, "y") != Some(Null) {
        layer.AddLayer(PinOf(l));
      }
      i := i + 1;
    }
    assert locations[..i] == locations;
  }
}
