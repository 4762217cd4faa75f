/**
 * The element lists `initializeGraph` hands to the graph widget: one node per
 * character, then one per location, and one edge per character that is
 * linked to a location.
 */
module RelationshipGraph {
  import opened Json
  import opened Records

  const CharacterColor := "#58a6ff"
  const LocationColor := "#00d1ff"

  datatype NodeType = CharacterNode | LocationNode

  datatype Node = Node(id: string, name: string, kind: NodeType, color: Value)  // `name` is the `label` field

  /** An edge from a character to whatever its `location_id` holds; the target is not checked. */
  datatype Edge = Edge(source: string, target: Value)

  datatype Elements = Elements(nodes: seq<Node>, edges: seq<Edge>)

  /** `record.color || fallback`. */
  function ColorOr(color: Option<Value>, fallback: string): (r: Value)
    ensures Truthy(color) ==> r == color.value
    ensures !Truthy(color) ==> r == Str(fallback)
  {
    if Truthy(color) then color.value else Str(fallback)
  }

  function NodeOfCharacter(c: Character): Node {
    Node(c.id, c.name, CharacterNode, ColorOr(c.color, CharacterColor))
  }

  function NodeOfLocation(l: Location): Node {
    Node(l.id, l.name, LocationNode, ColorOr(l.color, LocationColor))
  }

  /** A character gets an edge exactly when its `location_id` is truthy. */
  predicate Linked(c: Character) {
    Truthy(c.locationId)
  }

  function EdgeOf(c: Character): Edge
    requires Linked(c)
  {
    Edge(c.id, c.locationId.value)
  }

  /** `characters.map(...)`. */
  function CharacterNodes(cs: seq<Character>): (ns: seq<Node>)
    ensures |ns| == |cs|
    ensures forall i :: 0 <= i < |cs| ==> ns[i] == NodeOfCharacter(cs[i])
  {
    if cs == [] then [] else [NodeOfCharacter(cs[0])] + CharacterNodes(cs[1..])
  }

  /** `locations.map(...)`. */
  function LocationNodes(ls: seq<Location>): (ns: seq<Node>)
    ensures |ns| == |ls|
    ensures forall i :: 0 <= i < |ls| ==> ns[i] == NodeOfLocation(ls[i])
  {
    if ls == [] then [] else [NodeOfLocation(ls[0])] + LocationNodes(ls[1..])
  }

  /** `characters.filter(c => c.location_id).map(...)`. */
  function LinkEdges(cs: seq<Character>): (es: seq<Edge>)
    ensures |es| <= |cs|
    ensures forall e :: e in es ==> exists i :: 0 <= i < |cs| && Linked(cs[i]) && e == EdgeOf(cs[i])
    ensures forall i :: 0 <= i < |cs| && Linked(cs[i]) ==> EdgeOf(cs[i]) in es
  {
    if cs == [] then []
    else
      var rest := LinkEdges(cs[1..]);
      assert forall i :: 1 <= i < |cs| ==> cs[i] == cs[1..][i - 1];
      if Linked(cs[0]) then [EdgeOf(cs[0])] + rest else rest
  }

  /** The number of linked characters. */
  function LinkedCount(cs: seq<Character>): (n: nat)
    ensures n <= |cs|
  {
    if cs == [] then 0 else (if Linked(cs[0]) then 1 else 0) + LinkedCount(cs[1..])
  }

  /** Edges keep the characters' order: the edges of a concatenation are the concatenated edges. */
  lemma {:induction false} LinkEdgesAppend(a: seq<Character>, b: seq<Character>)
    ensures LinkEdges(a + b) == LinkEdges(a) + LinkEdges(b)
  {
    if a == [] {
      assert a + b == b;
    } else {
      assert (a + b)[0] == a[0];
      assert (a + b)[1..] == a[1..] + b;
      LinkEdgesAppend(a[1..], b);
    }
  }

  /** One edge per linked character, no more. */
  lemma {:induction false} LinkEdgesCount(cs: seq<Character>)
    ensures |LinkEdges(cs)| == LinkedCount(cs)
  {
    if cs != [] {
      LinkEdgesCount(cs[1..]);
    }
  }

  /** The element lists of `initializeGraph`. */
  function GraphElements(characters: seq<Character>, locations: seq<Location>): (g: Elements)
    ensures |g.nodes| == |characters| + |locations|
    ensures forall i :: 0 <= i < |characters| ==>
              g.nodes[i].kind == CharacterNode && g.nodes[i].id == characters[i].id &&
              g.nodes[i].color == ColorOr(characters[i].color, CharacterColor) &&
              g.nodes[i].name == characters[i].name
    ensures forall j :: 0 <= j < |locations| ==>
              g.nodes[|characters| + j].kind == LocationNode && g.nodes[|characters| + j].id == locations[j].id &&
              g.nodes[|characters| + j].color == ColorOr(locations[j].color, LocationColor) &&
              g.nodes[|characters| + j].name == locations[j].name
    ensures g.edges == LinkEdges(characters)
  {
    Elements(CharacterNodes(characters) + LocationNodes(locations), LinkEdges(characters))
  }

  /** Every edge starts at a character node; its target may name no node at all. */
  lemma EdgeSourcesAreCharacterNodes(characters: seq<Character>, locations: seq<Location>)
    ensures forall e :: e in GraphElements(characters, locations).edges ==>
              exists i :: 0 <= i < |characters| && GraphElements(characters, locations).nodes[i].id == e.source &&
                          GraphElements(characters, locations).nodes[i].kind == CharacterNode
  {
    var g := GraphElements(characters, locations);
    forall e | e in g.edges
      ensures exists i :: 0 <= i < |characters| && g.nodes[i].id == e.source && g.nodes[i].kind == CharacterNode
    {
      var i :| 0 <= i < |characters| && Linked(characters[i]) && e == EdgeOf(characters[i]);
      assert g.nodes[i].id == e.source;
    }
  }

  /** A character linked to an id that no node has still yields its edge. */
  lemma DanglingLinkKept(c: Character, target: string)
    requires c.locationId == Some(Str(target)) && target != "" && c.id != target
    ensures GraphElements([c], []).edges == [Edge(c.id, Str(target))]
    ensures forall n :: n in GraphElements([c], []).nodes ==> n.id != target
  {
  }
}
