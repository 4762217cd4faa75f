/**
 * The Flask backend's routes over its two collections, `characters` and
 * `locations`, with the database replaced by two in-memory tables of
 * documents. Every route answers 500 "Database not connected" before doing
 * anything else when there is no database. A route's effect is given as a
 * pure function from the tables before to the response and the tables after;
 * the `Store` class performs it in place.
 */
module Backend {
  import opened Json

  /** A stored document: its ObjectId, as `str()` renders it, and its other fields. */
  datatype Doc = Doc(id: string, fields: map<string, Value>)

  datatype Tables = Tables(characters: seq<Doc>, locations: seq<Doc>)

  datatype Table = Characters | Locations

  /** A node of `/api/graph-data`; `kind` is its `type`. */
  datatype GraphNode = GraphNode(id: string, name: Value, kind: string)

  /** An edge of `/api/graph-data`; `target` is the stored `location_id` (rendered by `str()`). */
  datatype GraphEdge = GraphEdge(source: string, target: Value, caption: string)

  datatype GraphData = GraphData(nodes: seq<GraphNode>, edges: seq<GraphEdge>)

  /** Response bodies. */
  datatype Body =
    | Message(text: string)                               // {"message": text}
    | Error(text: string)                                 // {"error": text}
    | Failure(context: string)                            // {"error": f"{context}: {exception}"}
    | Crash                                               // an uncaught exception: the framework's own 500
    | Records(items: seq<Value>)                           // a list of documents
    | Graph(elements: GraphData)                          // {"nodes": ..., "edges": ...}
    | World(characters: seq<Value>, locations: seq<Value>) // {"characters": ..., "locations": ...}

  datatype Response = Response(status: int, body: Body)

  /** A route's response and the tables it leaves. */
  datatype Outcome = Outcome(response: Response, tables: Tables)

  const DbDown := Response(500, Error("Database not connected"))
  const LivesIn := "lives in"

  // ---------------------------------------------------------------- ids

  predicate HexDigit(c: char) {
    '0' <= c <= '9' || 'a' <= c <= 'f' || 'A' <= c <= 'F'
  }

  predicate LowerHexDigit(c: char) {
    '0' <= c <= '9' || 'a' <= c <= 'f'
  }

  function Lower(c: char): (r: char)
    requires HexDigit(c)
    ensures LowerHexDigit(r)
    ensures LowerHexDigit(c) ==> r == c
  {
    if 'A' <= c <= 'F' then (c as int - 'A' as int + 'a' as int) as char else c
  }

  /** The text `ObjectId(text)` accepts: 24 hexadecimal digits. */
  predicate IsObjectIdText(s: string) {
    |s| == 24 && forall i :: 0 <= i < |s| ==> HexDigit(s[i])
  }

  /** An ObjectId as `str()` renders it: 24 lower-case hexadecimal digits. */
  predicate IsObjectId(s: string) {
    |s| == 24 && forall i :: 0 <= i < |s| ==> LowerHexDigit(s[i])
  }

  /** `ObjectId(text)`, rendered back with `str()`; `None` where the constructor raises. */
  function ParseObjectId(s: string): (r: Option<string>)
    ensures r.Some? <==> IsObjectIdText(s)
    ensures r.Some? ==> IsObjectId(r.value)
    ensures r.Some? ==> |r.value| == |s| && forall i :: 0 <= i < |s| ==> r.value[i] == Lower(s[i])
  {
    if IsObjectIdText(s) then Some(seq(|s|, i requires 0 <= i < |s| => Lower(s[i]))) else None
  }

  /** Rendering an id and parsing it back gives the same id. */
  lemma ObjectIdRoundTrip(id: string)
    requires IsObjectId(id)
    ensures ParseObjectId(id) == Some(id)
  {
    assert IsObjectIdText(id);
    var r := ParseObjectId(id).value;
    assert |r| == |id|;
    assert forall i :: 0 <= i < |id| ==> r[i] == id[i];
    assert r == id;
  }

  // ---------------------------------------------------------------- tables

  /** Ids are ObjectIds, distinct within a table, and kept apart from the other fields. */
  ghost predicate WellFormed(docs: seq<Doc>) {
    && (forall i :: 0 <= i < |docs| ==> IsObjectId(docs[i].id) && "_id" !in docs[i].fields)
    && (forall i, j :: 0 <= i < j < |docs| ==> docs[i].id != docs[j].id)
  }

  function Docs(t: Tables, table: Table): seq<Doc> {
    match table
    case Characters => t.characters
    case Locations => t.locations
  }

  function WithDocs(t: Tables, table: Table, docs: seq<Doc>): (r: Tables)
    ensures Docs(r, table) == docs
    ensures forall other :: other != table ==> Docs(r, other) == Docs(t, other)
  {
    match table
    case Characters => t.(characters := docs)
    case Locations => t.(locations := docs)
  }

  function Ids(docs: seq<Doc>): set<string> {
    set i | 0 <= i < |docs| :: docs[i].id
  }

  /** The position of the first document with `id`, or -1: what a query on `_id` matches. */
  function IndexOf(docs: seq<Doc>, id: string): (r: int)
    ensures -1 <= r < |docs|
    ensures r >= 0 ==> docs[r].id == id && forall j :: 0 <= j < r ==> docs[j].id != id
    ensures r == -1 <==> forall j :: 0 <= j < |docs| ==> docs[j].id != id
  {
    if docs == [] then -1
    else if docs[0].id == id then 0
    else
      var k := IndexOf(docs[1..], id);
      assert forall j :: 1 <= j < |docs| ==> docs[j] == docs[1..][j - 1];
      if k == -1 then -1 else k + 1
  }

  /** `update_one({'_id': id}, {'$set': {key: v}})` on a matched document. */
  function SetField(docs: seq<Doc>, i: int, key: string, v: Value): (r: seq<Doc>)
    requires 0 <= i < |docs|
    ensures |r| == |docs|
    ensures r[i].id == docs[i].id && r[i].fields == docs[i].fields[key := v]
    ensures forall j :: 0 <= j < |docs| && j != i ==> r[j] == docs[j]
  {
    docs[i := docs[i].(fields := docs[i].fields[key := v])]
  }

  /** `delete_one({'_id': id})` on a matched document. */
  function RemoveAt(docs: seq<Doc>, i: int): (r: seq<Doc>)
    requires 0 <= i < |docs|
    ensures |r| == |docs| - 1
    ensures forall j :: 0 <= j < i ==> r[j] == docs[j]
    ensures forall j :: i <= j < |r| ==> r[j] == docs[j + 1]
  {
    docs[..i] + docs[i + 1..]
  }

  /** Setting a field other than `_id` keeps a table well formed. */
  lemma SetFieldWellFormed(docs: seq<Doc>, i: int, key: string, v: Value)
    requires WellFormed(docs) && 0 <= i < |docs| && key != "_id"
    ensures WellFormed(SetField(docs, i, key, v))
  {
  }

  /**
   * Deleting the matched document from a well-formed table removes exactly
   * that id, keeps every other document in order, and keeps the table well formed.
   */
  lemma {:induction false} RemoveAtExactlyOne(docs: seq<Doc>, i: int)
    requires WellFormed(docs) && 0 <= i < |docs|
    ensures WellFormed(RemoveAt(docs, i))
    ensures Ids(RemoveAt(docs, i)) == Ids(docs) - {docs[i].id}
    ensures multiset(RemoveAt(docs, i)) + multiset{docs[i]} == multiset(docs)
  {
    var r := RemoveAt(docs, i);
    assert docs == docs[..i] + [docs[i]] + docs[i + 1..];
    forall id | id in Ids(r)
      ensures id in Ids(docs) - {docs[i].id}
    {
      var j :| 0 <= j < |r| && r[j].id == id;
      if j < i {
        assert r[j] == docs[j];
      } else {
        assert r[j] == docs[j + 1];
      }
    }
    forall id | id in Ids(docs) - {docs[i].id}
      ensures id in Ids(r)
    {
      var j :| 0 <= j < |docs| && docs[j].id == id;
      if j < i {
        assert r[j].id == id;
      } else {
        assert j > i;
        assert r[j - 1].id == id;
      }
    }
  }

  // ---------------------------------------------------------------- writes

  function Noun(table: Table): string {
    match table
    case Characters => "Character"
    case Locations => "Location"
  }

  function LowerNoun(table: Table): string {
    match table
    case Characters => "character"
    case Locations => "location"
  }

  /** `delete_character` / `delete_location`. */
  function DeleteRoute(t: Tables, connected: bool, table: Table, idText: string): (o: Outcome)
    ensures !connected ==> o == Outcome(DbDown, t)
    ensures connected && !IsObjectIdText(idText) ==>
              o == Outcome(Response(500, Failure("Failed to delete " + LowerNoun(table))), t)
    ensures o.response.status == 200 <==>
              connected && IsObjectIdText(idText) && IndexOf(Docs(t, table), ParseObjectId(idText).value) >= 0
    ensures o.response.status == 404 <==>
              connected && IsObjectIdText(idText) && IndexOf(Docs(t, table), ParseObjectId(idText).value) == -1
    ensures o.response.status != 200 ==> o.tables == t
    ensures o.response.status == 200 ==>
              o.response.body == Message(Noun(table) + " deleted successfully") &&
              o.tables == WithDocs(t, table, RemoveAt(Docs(t, table), IndexOf(Docs(t, table), ParseObjectId(idText).value)))
  {
    if !connected then Outcome(DbDown, t)
    else match ParseObjectId(idText)
      case None => Outcome(Response(500, Failure("Failed to delete " + LowerNoun(table))), t)
      case Some(id) =>
        var i := IndexOf(Docs(t, table), id);
        if i == -1 then Outcome(Response(404, Error(Noun(table) + " not found")), t)
        else Outcome(Response(200, Message(Noun(table) + " deleted successfully")),
                     WithDocs(t, table, RemoveAt(Docs(t, table), i)))
  }

  /** A successful delete on well-formed tables removes exactly the one record with that id. */
  lemma DeleteRemovesExactlyOne(t: Tables, table: Table, idText: string)
    requires WellFormed(Docs(t, table))
    requires DeleteRoute(t, true, table, idText).response.status == 200
    ensures var after := DeleteRoute(t, true, table, idText).tables;
      && ParseObjectId(idText).value in Ids(Docs(t, table))
      && Ids(Docs(after, table)) == Ids(Docs(t, table)) - {ParseObjectId(idText).value}
      && |Docs(after, table)| == |Docs(t, table)| - 1
      && WellFormed(Docs(after, table))
      && forall other :: other != table ==> Docs(after, other) == Docs(t, other)
  {
    var docs := Docs(t, table);
    var i := IndexOf(docs, ParseObjectId(idText).value);
    RemoveAtExactlyOne(docs, i);
  }

  /** `link_character_location`. */
  function LinkLocationRoute(t: Tables, connected: bool, characterIdText: string, body: Option<Value>): (o: Outcome)
    ensures !connected ==> o == Outcome(DbDown, t)
    ensures connected && !(body.Some? && body.value.Obj?) ==>
              o == Outcome(Response(500, Failure("Failed to update character")), t)
    ensures connected && body.Some? && body.value.Obj? &&
            !(PyGet(body.value.fields, "location_id").Some? && PyTruthy(body.value.fields["location_id"])) ==>
              o == Outcome(Response(400, Error("location_id is required")), t)
    ensures connected && body.Some? && body.value.Obj? &&
            PyGet(body.value.fields, "location_id").Some? && PyTruthy(body.value.fields["location_id"]) &&
            !IsObjectIdText(characterIdText) ==>
              o == Outcome(Response(500, Failure("Failed to update character")), t)
    ensures o.response.status == 404 <==>
              connected && body.Some? && body.value.Obj? &&
              PyGet(body.value.fields, "location_id").Some? && PyTruthy(body.value.fields["location_id"]) &&
              IsObjectIdText(characterIdText) && IndexOf(t.characters, ParseObjectId(characterIdText).value) == -1
    ensures o.response.status == 404 ==> o.response.body == Error("Character not found")
    ensures o.response.status != 200 ==> o.tables == t
    ensures o.response.status == 200 <==>
              connected && body.Some? && body.value.Obj? && "location_id" in body.value.fields &&
              PyTruthy(body.value.fields["location_id"]) && IsObjectIdText(characterIdText) &&
              IndexOf(t.characters, ParseObjectId(characterIdText).value) >= 0
    ensures o.response.status == 200 ==>
              o.tables.locations == t.locations &&
              o.tables.characters == SetField(t.characters, IndexOf(t.characters, ParseObjectId(characterIdText).value),
                                              "location_id", body.value.fields["location_id"])
  {
    if !connected then Outcome(DbDown, t)
    else if !(body.Some? && body.value.Obj?) then Outcome(Response(500, Failure("Failed to update character")), t)
    else
      var locationId := PyGet(body.value.fields, "location_id");
      if !(locationId.Some? && PyTruthy(locationId.value)) then Outcome(Response(400, Error("location_id is required")), t)
      else match ParseObjectId(characterIdText)
        case None => Outcome(Response(500, Failure("Failed to update character")), t)
        case Some(id) =>
          var i := IndexOf(t.characters, id);
          if i == -1 then Outcome(Response(404, Error("Character not found")), t)
          else Outcome(Response(200, Message("Character updated successfully")),
                       t.(characters := SetField(t.characters, i, "location_id", locationId.value)))
  }

  /** Linking does not look at the locations table: any truthy value is stored, even one naming no location. */
  lemma LinkIgnoresLocations(t: Tables, characterIdText: string, target: string)
    requires target != "" && IsObjectIdText(characterIdText)
    requires IndexOf(t.characters, ParseObjectId(characterIdText).value) >= 0
    requires forall l :: l in t.locations ==> l.id != target
    ensures LinkLocationRoute(t, true, characterIdText, Some(Obj(map["location_id" := Str(target)]))).response.status == 200
  {
  }

  /** The coordinates object `set_coords` stores. */
  function CoordsValue(x: Value, y: Value): Value {
    Obj(map["x" := x, "y" := y])
  }

  /** `set_location_coordinates`. */
  function SetCoordsRoute(t: Tables, connected: bool, locationIdText: string, body: Option<Value>): (o: Outcome)
    ensures !connected ==> o == Outcome(DbDown, t)
    ensures connected && !(body.Some? && body.value.Obj?) ==>
              o == Outcome(Response(500, Failure("Failed to update location coordinates")), t)
    ensures connected && body.Some? && body.value.Obj? &&
            (PyGet(body.value.fields, "x").None? || PyGet(body.value.fields, "y").None?) ==>
              o == Outcome(Response(400, Error("x and y coordinates are required")), t)
    ensures connected && body.Some? && body.value.Obj? &&
            PyGet(body.value.fields, "x").Some? && PyGet(body.value.fields, "y").Some? &&
            !IsObjectIdText(locationIdText) ==>
              o == Outcome(Response(500, Failure("Failed to update location coordinates")), t)
    ensures o.response.status == 404 <==>
              connected && body.Some? && body.value.Obj? &&
              PyGet(body.value.fields, "x").Some? && PyGet(body.value.fields, "y").Some? &&
              IsObjectIdText(locationIdText) && IndexOf(t.locations, ParseObjectId(locationIdText).value) == -1
    ensures o.response.status != 200 ==> o.tables == t
    ensures o.response.status == 200 <==>
              connected && body.Some? && body.value.Obj? &&
              PyGet(body.value.fields, "x").Some? && PyGet(body.value.fields, "y").Some? &&
              IsObjectIdText(locationIdText) && IndexOf(t.locations, ParseObjectId(locationIdText).value) >= 0
    ensures o.response.status == 404 ==> o.response.body == Error("Location not found")
    ensures o.response.status == 200 ==>
              o.tables.characters == t.characters &&
              o.tables.locations == SetField(t.locations, IndexOf(t.locations, ParseObjectId(locationIdText).value),
                                             "coords", CoordsValue(body.value.fields["x"], body.value.fields["y"]))
  {
    if !connected then Outcome(DbDown, t)
    else if !(body.Some? && body.value.Obj?) then Outcome(Response(500, Failure("Failed to update location coordinates")), t)
    else
      var x := PyGet(body.value.fields, "x");
      var y := PyGet(body.value.fields, "y");
      if x.None? || y.None? then Outcome(Response(400, Error("x and y coordinates are required")), t)
      else match ParseObjectId(locationIdText)
        case None => Outcome(Response(500, Failure("Failed to update location coordinates")), t)
        case Some(id) =>
          var i := IndexOf(t.locations, id);
          if i == -1 then Outcome(Response(404, Error("Location not found")), t)
          else Outcome(Response(200, Message("Location coordinates updated successfully")),
                       t.(locations := SetField(t.locations, i, "coords", CoordsValue(x.value, y.value))))
  }

  /** The check is `is None`: zero coordinates are stored like any others. */
  lemma ZeroCoordinatesAccepted(t: Tables, locationIdText: string)
    requires IsObjectIdText(locationIdText) && IndexOf(t.locations, ParseObjectId(locationIdText).value) >= 0
    ensures var o := SetCoordsRoute(t, true, locationIdText, Some(Obj(map["x" := Num(0), "y" := Num(0)])));
      o.response.status == 200 &&
      o.tables.locations[IndexOf(t.locations, ParseObjectId(locationIdText).value)].fields["coords"]
        == CoordsValue(Num(0), Num(0))
  {
  }

  /** After a successful `set_coords`, reading the location back yields the stored coordinates. */
  lemma SetCoordsThenRead(t: Tables, locationIdText: string, x: int, y: int)
    requires WellFormed(t.locations)
    requires IsObjectIdText(locationIdText) && IndexOf(t.locations, ParseObjectId(locationIdText).value) >= 0
    ensures var after := SetCoordsRoute(t, true, locationIdText, Some(Obj(map["x" := Num(x), "y" := Num(y)]))).tables;
      var i := IndexOf(after.locations, ParseObjectId(locationIdText).value);
      && WellFormed(after.locations)
      && i == IndexOf(t.locations, ParseObjectId(locationIdText).value)
      && after.locations[i].fields["coords"] == CoordsValue(Num(x), Num(y))
  {
    var i := IndexOf(t.locations, ParseObjectId(locationIdText).value);
    SetFieldWellFormed(t.locations, i, "coords", CoordsValue(Num(x), Num(y)));
  }

  // ---------------------------------------------------------------- reads

  /** A document as the routes return it: its fields with `_id` as a string. */
  function Exported(d: Doc): (v: Value)
    ensures v.Obj? && v.fields.Keys == d.fields.Keys + {"_id"} && v.fields["_id"] == Str(d.id)
    ensures forall k :: k in d.fields && k != "_id" ==> v.fields[k] == d.fields[k]
  {
    Obj(d.fields["_id" := Str(d.id)])
  }

  /** The `for` loop that stringifies `_id` over a whole collection (unfolded from the last document). */
  function ExportedAll(docs: seq<Doc>): (vs: seq<Value>)
    ensures |vs| == |docs|
    ensures forall i :: 0 <= i < |docs| ==> vs[i] == Exported(docs[i])
  {
    if docs == [] then [] else ExportedAll(docs[..|docs| - 1]) + [Exported(docs[|docs| - 1])]
  }

  /** `get_all_characters` / `get_all_locations`. */
  function ListRoute(t: Tables, connected: bool, table: Table): (r: Response)
    ensures !connected ==> r == DbDown
    ensures connected ==> r == Response(200, Records(ExportedAll(Docs(t, table))))
  {
    if !connected then DbDown else Response(200, Records(ExportedAll(Docs(t, table))))
  }

  /** `export_world_to_json`. */
  function ExportRoute(t: Tables, connected: bool): (r: Response)
    ensures !connected ==> r == DbDown
    ensures connected ==> r.status == 200 && r.body.World?
    ensures connected ==> r.body.characters == ExportedAll(t.characters) && r.body.locations == ExportedAll(t.locations)
  {
    if !connected then DbDown else Response(200, World(ExportedAll(t.characters), ExportedAll(t.locations)))
  }

  /** The export holds every stored record, in order, each with all of its fields and its id as a string. */
  lemma ExportIsComplete(t: Tables)
    ensures var w := ExportRoute(t, true).body;
      && |w.characters| == |t.characters| && |w.locations| == |t.locations|
      && (forall i :: 0 <= i < |t.characters| ==>
            w.characters[i].Obj? && w.characters[i].fields["_id"] == Str(t.characters[i].id) &&
            forall k :: k in t.characters[i].fields && k != "_id" ==>
              k in w.characters[i].fields && w.characters[i].fields[k] == t.characters[i].fields[k])
      && (forall i :: 0 <= i < |t.locations| ==>
            w.locations[i].Obj? && w.locations[i].fields["_id"] == Str(t.locations[i].id) &&
            forall k :: k in t.locations[i].fields && k != "_id" ==>
              k in w.locations[i].fields && w.locations[i].fields[k] == t.locations[i].fields[k])
  {
  }

  /** `char['name']` raises `KeyError` unless every document has a name. */
  predicate AllNamed(docs: seq<Doc>) {
    forall i :: 0 <= i < |docs| ==> "name" in docs[i].fields
  }

  /** `'location_id' in char and char['location_id']`. */
  predicate HasLink(d: Doc) {
    "location_id" in d.fields && PyTruthy(d.fields["location_id"])
  }

  function NodeOf(d: Doc, kind: string): GraphNode
    requires "name" in d.fields
  {
    GraphNode(d.id, d.fields["name"], kind)
  }

  function EdgeOf(d: Doc): GraphEdge
    requires HasLink(d)
  {
    GraphEdge(d.id, d.fields["location_id"], LivesIn)
  }

  /** The nodes one loop appends (unfolded from the last document). */
  function NodesOf(docs: seq<Doc>, kind: string): (ns: seq<GraphNode>)
    requires AllNamed(docs)
    ensures |ns| == |docs|
    ensures forall i :: 0 <= i < |docs| ==> ns[i] == NodeOf(docs[i], kind)
  {
    if docs == [] then [] else NodesOf(docs[..|docs| - 1], kind) + [NodeOf(docs[|docs| - 1], kind)]
  }

  /** The edges the character loop appends (unfolded from the last character). */
  function EdgesOf(docs: seq<Doc>): (es: seq<GraphEdge>)
    ensures |es| <= |docs|
    ensures forall e :: e in es ==> exists i :: 0 <= i < |docs| && HasLink(docs[i]) && e == EdgeOf(docs[i])
    ensures forall i :: 0 <= i < |docs| && HasLink(docs[i]) ==> EdgeOf(docs[i]) in es
  {
    if docs == [] then []
    else
      var before := EdgesOf(docs[..|docs| - 1]);
      assert forall i :: 0 <= i < |docs| - 1 ==> docs[i] == docs[..|docs| - 1][i];
      var d := docs[|docs| - 1];
      if HasLink(d) then before + [EdgeOf(d)] else before
  }

  /** The number of characters with a truthy `location_id` (counted from the last document). */
  function LinkedCount(docs: seq<Doc>): (n: nat)
    ensures n <= |docs|
  {
    if docs == [] then 0 else LinkedCount(docs[..|docs| - 1]) + (if HasLink(docs[|docs| - 1]) then 1 else 0)
  }

  /** One edge per linked character, no more. */
  lemma {:induction false} EdgesCount(docs: seq<Doc>)
    ensures |EdgesOf(docs)| == LinkedCount(docs)
  {
    if docs != [] {
      EdgesCount(docs[..|docs| - 1]);
    }
  }

  /** Edges keep the characters' order: the edges of a concatenation are the concatenated edges. */
  lemma {:induction false} EdgesAppend(a: seq<Doc>, b: seq<Doc>)
    ensures EdgesOf(a + b) == EdgesOf(a) + EdgesOf(b)
  {
    if b == [] {
      assert a + b == a;
    } else {
      var front := b[..|b| - 1];
      assert (a + b)[..|a + b| - 1] == a + front;
      assert (a + b)[|a + b| - 1] == b[|b| - 1];
      EdgesAppend(a, front);
    }
  }

  /** `get_graph_data`. */
  function GraphRoute(t: Tables, connected: bool): (r: Response)
    ensures !connected ==> r == DbDown
    ensures connected && !(AllNamed(t.characters) && AllNamed(t.locations)) ==>
              r == Response(500, Failure("Failed to fetch graph data"))
    ensures r.status == 200 <==> connected && AllNamed(t.characters) && AllNamed(t.locations)
    ensures r.status == 200 ==> r.body.Graph?
  {
    if !connected then DbDown
    else if !(AllNamed(t.characters) && AllNamed(t.locations)) then Response(500, Failure("Failed to fetch graph data"))
    else Response(200, Graph(GraphData(NodesOf(t.characters, "character") + NodesOf(t.locations, "location"),
                                       EdgesOf(t.characters))))
  }

  /**
   * The graph holds one 'character' node per character, then one 'location'
   * node per location, and one 'lives in' edge per character with a truthy
   * `location_id`, from that character.
   */
  lemma GraphShape(t: Tables)
    requires AllNamed(t.characters) && AllNamed(t.locations)
    ensures var g := GraphRoute(t, true).body.elements;
      && |g.nodes| == |t.characters| + |t.locations|
      && (forall i :: 0 <= i < |t.characters| ==> g.nodes[i].id == t.characters[i].id && g.nodes[i].kind == "character")
      && (forall j :: 0 <= j < |t.locations| ==>
            g.nodes[|t.characters| + j].id == t.locations[j].id && g.nodes[|t.characters| + j].kind == "location")
      && (forall e :: e in g.edges ==>
            (e.caption == LivesIn &&
             exists i :: 0 <= i < |t.characters| && HasLink(t.characters[i]) && e.source == t.characters[i].id))
      && (forall i :: 0 <= i < |t.characters| && HasLink(t.characters[i]) ==> EdgeOf(t.characters[i]) in g.edges)
      && |g.edges| == LinkedCount(t.characters)
  {
    EdgesCount(t.characters);
  }

  // ---------------------------------------------------------------- generation

  /** Whether a generation request may go on to the language model, or its early response. */
  datatype Gate = Reject(response: Response) | Proceed(prompt: Value)

  /** Python's `sub in s` on strings. */
  predicate Contains(s: string, sub: string)
    decreases |s|
  {
    |sub| <= |s| && (s[..|sub|] == sub || Contains(s[1..], sub))
  }

  /**
   * The checks of `generate_character` before the model is called. `body` is
   * what `request.get_json()` returned. `'prompt' not in data` is a substring
   * test on a string body and raises on a number or `true`; a string body
   * that contains "prompt" reaches `data.get`, which raises.
   */
  function GenerateCharacterGate(connected: bool, body: Option<Value>): (g: Gate)
    ensures !connected ==> g == Reject(DbDown)
    ensures g.Proceed? <==>
              connected && body.Some? && body.value.Obj? && "prompt" in body.value.fields &&
              PyTruthy(body.value.fields["prompt"])
    ensures g.Proceed? ==> g.prompt == body.value.fields["prompt"] && PyTruthy(g.prompt)
    ensures connected && (body.None? || !PyTruthy(body.value)) ==>
              g == Reject(Response(400, Error("Request body must be JSON and contain a 'prompt' key")))
    ensures connected && body.Some? && body.value.Obj? && "prompt" in body.value.fields &&
            !PyTruthy(body.value.fields["prompt"]) ==>
              g == Reject(Response(400, Error("Prompt is required")))
    ensures connected && body.Some? && body.value.Obj? && "prompt" !in body.value.fields ==>
              g == Reject(Response(400, Error("Request body must be JSON and contain a 'prompt' key")))
    ensures connected && body.Some? && body.value.Str? && body.value.s != "" && !Contains(body.value.s, "prompt") ==>
              g == Reject(Response(400, Error("Request body must be JSON and contain a 'prompt' key")))
    ensures connected && body.Some? && PyTruthy(body.value) &&
            (body.value.Num? || body.value.Bool? || (body.value.Str? && Contains(body.value.s, "prompt"))) ==>
              g == Reject(Response(500, Crash))
  {
    if !connected then Reject(DbDown)
    else if body.None? || !PyTruthy(body.value) then
      Reject(Response(400, Error("Request body must be JSON and contain a 'prompt' key")))
    else match body.value
      case Obj(m) =>
        if "prompt" !in m then Reject(Response(400, Error("Request body must be JSON and contain a 'prompt' key")))
        else if !PyTruthy(m["prompt"]) then Reject(Response(400, Error("Prompt is required")))
        else Proceed(m["prompt"])
      case Str(s) =>
        if !Contains(s, "prompt") then Reject(Response(400, Error("Request body must be JSON and contain a 'prompt' key")))
        else Reject(Response(500, Crash))
      case _ => Reject(Response(500, Crash))
  }

  /**
   * The checks of `generate_location`: it calls `data.get` straight away, so a
   * body that is not an object (including none at all) raises.
   */
  function GenerateLocationGate(connected: bool, body: Option<Value>): (g: Gate)
    ensures !connected ==> g == Reject(DbDown)
    ensures connected && !(body.Some? && body.value.Obj?) ==> g == Reject(Response(500, Crash))
    ensures g.Proceed? <==>
              connected && body.Some? && body.value.Obj? && "prompt" in body.value.fields &&
              PyTruthy(body.value.fields["prompt"])
    ensures g.Proceed? ==> g.prompt == body.value.fields["prompt"] && PyTruthy(g.prompt)
    ensures connected && body.Some? && body.value.Obj? && !g.Proceed? ==>
              g == Reject(Response(400, Error("Prompt is required")))
  {
    if !connected then Reject(DbDown)
    else match body
      case Some(Obj(m)) =>
        var prompt := PyGet(m, "prompt");
        if prompt.None? || !PyTruthy(prompt.value) then Reject(Response(400, Error("Prompt is required")))
        else Proceed(prompt.value)
      case _ => Reject(Response(500, Crash))
  }

  /**
   * The two generation routes accept exactly the same requests; they differ
   * only in how they refuse: a missing body is a 400 for characters and an
   * uncaught error for locations.
   */
  lemma GatesCompared(connected: bool, body: Option<Value>)
    ensures GenerateCharacterGate(connected, body).Proceed? <==> GenerateLocationGate(connected, body).Proceed?
    ensures GenerateCharacterGate(connected, body).Proceed? ==>
              GenerateCharacterGate(connected, body) == GenerateLocationGate(connected, body)
    ensures connected && body.None? ==>
              GenerateCharacterGate(connected, body).response.status == 400 &&
              GenerateLocationGate(connected, body).response.status == 500
  {
  }

  // ---------------------------------------------------------------- routing

  /** A `DELETE` path the app routes: `/api/characters/<id>` or `/api/locations/<id>`. */
  datatype DeleteTarget = DeleteTarget(table: Table, idText: string)

  function TablePath(table: Table): string {
    match table
    case Characters => "/api/characters/"
    case Locations => "/api/locations/"
  }

  /** A path segment the default URL converter accepts: non-empty, without '/'. */
  predicate Segment(s: string) {
    s != [] && forall i :: 0 <= i < |s| ==> s[i] != '/'
  }

  function RouteDelete(path: string): (r: Option<DeleteTarget>)
    ensures r.Some? ==> path == TablePath(r.value.table) + r.value.idText && Segment(r.value.idText)
  {
    var c := TablePath(Characters);
    var l := TablePath(Locations);
    if |c| <= |path| && path[..|c|] == c && Segment(path[|c|..]) then
      assert path == c + path[|c|..];
      Some(DeleteTarget(Characters, path[|c|..]))
    else if |l| <= |path| && path[..|l|] == l && Segment(path[|l|..]) then
      assert path == l + path[|l|..];
      Some(DeleteTarget(Locations, path[|l|..]))
    else None
  }

  /** Every table's path with an id segment routes back to that table and id. */
  lemma RouteDeleteRoundTrip(table: Table, idText: string)
    requires Segment(idText)
    ensures RouteDelete(TablePath(table) + idText) == Some(DeleteTarget(table, idText))
  {
    var path := TablePath(table) + idText;
    var c := TablePath(Characters);
    assert path[..|TablePath(table)|] == TablePath(table);
    assert path[|TablePath(table)|..] == idText;
    if table == Locations {
      // "/api/locations/" is not a prefix of... it differs from "/api/characters/" at index 5.
      assert |c| <= |path| ==> path[5] != c[5];
    }
  }

  // ---------------------------------------------------------------- the store

  /** The first index of `id` in `docs`: the matching a single-document update or delete performs. */
  method FindDoc(docs: seq<Doc>, id: string) returns (index: int)
    ensures index == IndexOf(docs, id)
  {
    index := 0;
    while index < |docs|
      invariant 0 <= index <= |docs|
      invariant forall j :: 0 <= j < index ==> docs[j].id != id
    {
      if docs[index].id == id {
        return;
      }
      index := index + 1;
    }
    index := -1;
  }

  /** The stringifying loop of the read routes. */
  method ExportDocs(docs: seq<Doc>) returns (items: seq<Value>)
    ensures items == ExportedAll(docs)
  {
    items := [];
    var i := 0;
    while i < |docs|
      invariant 0 <= i <= |docs|
      invariant items == ExportedAll(docs[..i])
    {
      assert docs[..i + 1][..i] == docs[..i];
      items := items + [Exported(docs[i])];
      i := i + 1;
    }
    assert docs[..i] == docs;
  }

  /**
   * The loop of `get_graph_data` over the characters, appending a node and,
   * when linked, an edge; `named` is false where `char['name']` raises.
   */
  method CharacterElements(docs: seq<Doc>) returns (named: bool, nodes: seq<GraphNode>, edges: seq<GraphEdge>)
    ensures named == AllNamed(docs)
    ensures named ==> nodes == NodesOf(docs, "character") && edges == EdgesOf(docs)
  {
    nodes, edges := [], [];
    var i := 0;
    while i < |docs|
      invariant 0 <= i <= |docs|
      invariant AllNamed(docs[..i])
      invariant nodes == NodesOf(docs[..i], "character")
      invariant edges == EdgesOf(docs[..i])
    {
      var d := docs[i];
      assert docs[..i + 1][..i] == docs[..i];
      if "name" !in d.fields {
        return false, nodes, edges;
      }
      nodes := nodes + [NodeOf(d, "character")];
      if "location_id" in d.fields && PyTruthy(d.fields["location_id"]) {
        edges := edges + [EdgeOf(d)];
      }
      i := i + 1;
    }
    assert docs[..i] == docs;
    named := true;
  }

  /** The loop of `get_graph_data` over the locations. */
  method LocationElements(docs: seq<Doc>) returns (named: bool, nodes: seq<GraphNode>)
    ensures named == AllNamed(docs)
    ensures named ==> nodes == NodesOf(docs, "location")
  {
    nodes := [];
    var i := 0;
    while i < |docs|
      invariant 0 <= i <= |docs|
      invariant AllNamed(docs[..i])
      invariant nodes == NodesOf(docs[..i], "location")
    {
      var d := docs[i];
      assert docs[..i + 1][..i] == docs[..i];
      if "name" !in d.fields {
        return false, nodes;
      }
      nodes := nodes + [NodeOf(d, "location")];
      i := i + 1;
    }
    assert docs[..i] == docs;
    named := true;
  }

  /** The application's database: absent (`db is None`) or the two collections. */
  class Store {
    const connected: bool
    var characters: seq<Doc>
    var locations: seq<Doc>

    ghost predicate Valid()
      reads this
    {
      WellFormed(characters) && WellFormed(locations)
    }

    function Snapshot(): Tables
      reads this
    {
      Tables(characters, locations)
    }

    constructor (connected: bool, characters: seq<Doc>, locations: seq<Doc>)
      requires WellFormed(characters) && WellFormed(locations)
      ensures Valid() && this.connected == connected
      ensures Snapshot() == Tables(characters, locations)
    {
      this.connected := connected;
      this.characters := characters;
      this.locations := locations;
    }

    method Delete(table: Table, idText: string) returns (response: Response)
      requires Valid()
      modifies this
      ensures Valid()
      ensures Outcome(response, Snapshot()) == DeleteRoute(old(Snapshot()), connected, table, idText)
    {
      if !connected {
        return DbDown;
      }
      var id := ParseObjectId(idText);
      if id.None? {
        return Response(500, Failure("Failed to delete " + LowerNoun(table)));
      }
      var docs := if table == Characters then characters else locations;
      var i := FindDoc(docs, id.value);
      if i == -1 {
        return Response(404, Error(Noun(table) + " not found"));
      }
      RemoveAtExactlyOne(docs, i);
      if table == Characters {
        characters := RemoveAt(characters, i);
      } else {
        locations := RemoveAt(locations, i);
      }
      response := Response(200, Message(Noun(table) + " deleted successfully"));
    }

    /** `DELETE /api/characters/<character_id>`. */
    method DeleteCharacter(idText: string) returns (response: Response)
      requires Valid()
      modifies this
      ensures Valid()
      ensures Outcome(response, Snapshot()) == DeleteRoute(old(Snapshot()), connected, Characters, idText)
    {
      response := Delete(Characters, idText);
    }

    /** `DELETE /api/locations/<location_id>`. */
    method DeleteLocation(idText: string) returns (response: Response)
      requires Valid()
      modifies this
      ensures Valid()
      ensures Outcome(response, Snapshot()) == DeleteRoute(old(Snapshot()), connected, Locations, idText)
    {
      response := Delete(Locations, idText);
    }

    /** `PUT /api/characters/<character_id>/link_location`. */
    method LinkLocation(characterIdText: string, body: Option<Value>) returns (response: Response)
      requires Valid()
      modifies this
      ensures Valid()
      ensures Outcome(response, Snapshot()) == LinkLocationRoute(old(Snapshot()), connected, characterIdText, body)
    {
      if !connected {
        return DbDown;
      }
      if !(body.Some? && body.value.Obj?) {
        return Response(500, Failure("Failed to update character"));
      }
      var locationId := PyGet(body.value.fields, "location_id");
      if !(locationId.Some? && PyTruthy(locationId.value)) {
        return Response(400, Error("location_id is required"));
      }
      var id := ParseObjectId(characterIdText);
      if id.None? {
        return Response(500, Failure("Failed to update character"));
      }
      var i := FindDoc(characters, id.value);
      if i == -1 {
        return Response(404, Error("Character not found"));
      }
      SetFieldWellFormed(characters, i, "location_id", locationId.value);
      characters := SetField(characters, i, "location_id", locationId.value);
      response := Response(200, Message("Character updated successfully"));
    }

    /** `PUT /api/locations/<location_id>/set_coords`. */
    method SetCoords(locationIdText: string, body: Option<Value>) returns (response: Response)
      requires Valid()
      modifies this
      ensures Valid()
      ensures Outcome(response, Snapshot()) == SetCoordsRoute(old(Snapshot()), connected, locationIdText, body)
    {
      if !connected {
        return DbDown;
      }
      if !(body.Some? && body.value.Obj?) {
        return Response(500, Failure("Failed to update location coordinates"));
      }
      var x := PyGet(body.value.fields, "x");
      var y := PyGet(body.value.fields, "y");
      if x.None? || y.None? {
        return Response(400, Error("x and y coordinates are required"));
      }
      var id := ParseObjectId(locationIdText);
      if id.None? {
        return Response(500, Failure("Failed to update location coordinates"));
      }
      var i := FindDoc(locations, id.value);
      if i == -1 {
        return Response(404, Error("Location not found"));
      }
      SetFieldWellFormed(locations, i, "coords", CoordsValue(x.value, y.value));
      locations := SetField(locations, i, "coords", CoordsValue(x.value, y.value));
      response := Response(200, Message("Location coordinates updated successfully"));
    }

    /** `GET /api/characters`. */
    method GetAllCharacters() returns (response: Response)
      ensures response == ListRoute(Snapshot(), connected, Characters)
    {
      if !connected {
        return DbDown;
      }
      var items := ExportDocs(characters);
      response := Response(200, Records(items));
    }

    /** `GET /api/locations`. */
    method GetAllLocations() returns (response: Response)
      ensures response == ListRoute(Snapshot(), connected, Locations)
    {
      if !connected {
        return DbDown;
      }
      var items := ExportDocs(locations);
      response := Response(200, Records(items));
    }

    /** `GET /api/export/json`. */
    method ExportWorld() returns (response: Response)
      ensures response == ExportRoute(Snapshot(), connected)
    {
      if !connected {
        return DbDown;
      }
      var cs := ExportDocs(characters);
      var ls := ExportDocs(locations);
      response := Response(200, World(cs, ls));
    }

    /** `GET /api/graph-data`. */
    method GetGraphData() returns (response: Response)
      ensures response == GraphRoute(Snapshot(), connected)
    {
      if !connected {
        return DbDown;
      }
      var charactersNamed, characterNodes, edges := CharacterElements(characters);
      if !charactersNamed {
        return Response(500, Failure("Failed to fetch graph data"));
      }
      var locationsNamed, locationNodes := LocationElements(locations);
      if !locationsNamed {
        return Response(500, Failure("Failed to fetch graph data"));
      }
      response := Response(200, Graph(GraphData(characterNodes + locationNodes, edges)));
    }
  }
}
