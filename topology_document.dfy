/** The declarative topology document: the parsed YAML value, the shape
    both loaders' schemas require of it, the typed topology the core reads
    out of a document of that shape, and the lookup of a node by name that
    every file-backed variant performs. */
module TopologyDocument {
  import opened Base

  /** A parsed YAML/JSON value. */
  datatype Json = JNull | JBool(b: bool) | JNum(n: int) | JStr(s: string) | JArr(items: seq<Json>) | JObj(fields: map<string, Json>)

  /** A physical link of a node: the optional logical port name, the switch,
      the port on the switch and, in the earlier variant, the switch id. */
  datatype TopoPort = TopoPort(name: Option<string>, switchName: string, portName: string, switchId: Option<string>)

  datatype Node = Node(name: string, ports: seq<TopoPort>)

  datatype Topology = Topology(nodes: seq<Node>)

  predicate StrField(o: map<string, Json>, key: string)
  {
    key in o && o[key].JStr?
  }

  predicate OptStrField(o: map<string, Json>, key: string)
  {
    key in o ==> o[key].JStr?
  }

  /** A port item: an object with string `switch_name` and `port_name`, a
      string `name` if present and, when required, a string `switch_id`. */
  predicate PortShape(p: Json, requireSwitchId: bool)
  {
    && p.JObj?
    && StrField(p.fields, "switch_name")
    && StrField(p.fields, "port_name")
    && OptStrField(p.fields, "name")
    && (if requireSwitchId then StrField(p.fields, "switch_id") else true)
  }

  /** A node item: an object with a string `name` and a `ports` array of
      port items. */
  predicate NodeShape(n: Json, requireSwitchId: bool)
  {
    && n.JObj?
    && StrField(n.fields, "name")
    && "ports" in n.fields
    && n.fields["ports"].JArr?
    && forall i :: 0 <= i < |n.fields["ports"].items| ==> PortShape(n.fields["ports"].items[i], requireSwitchId)
  }

  /** The document: an object whose `nodes` is an array of node items. */
  predicate DocShape(doc: Json, requireSwitchId: bool)
  {
    && doc.JObj?
    && "nodes" in doc.fields
    && doc.fields["nodes"].JArr?
    && forall i :: 0 <= i < |doc.fields["nodes"].items| ==> NodeShape(doc.fields["nodes"].items[i], requireSwitchId)
  }

  /** Requiring `switch_id` only narrows the shape. */
  lemma SwitchIdShapeIsNarrower(doc: Json)
    ensures DocShape(doc, true) ==> DocShape(doc, false)
  {
    if DocShape(doc, true) {
      var nodes := doc.fields["nodes"].items;
      forall i | 0 <= i < |nodes| ensures NodeShape(nodes[i], false) {
        assert NodeShape(nodes[i], true);
      }
    }
  }

  /** The node items of a document of the right shape. */
  function NodeItems(doc: Json): seq<Json>
    requires DocShape(doc, false)
  {
    doc.fields["nodes"].items
  }

  /** The `name` of each node item, in document order. */
  function DocNames(doc: Json): (r: seq<string>)
    requires DocShape(doc, false)
    ensures |r| == |NodeItems(doc)|
  {
    var nodes := NodeItems(doc);
    seq(|nodes|, i requires 0 <= i < |nodes| => assert NodeShape(nodes[i], false); nodes[i].fields["name"].s)
  }

  function DecodePort(p: Json): TopoPort
    requires PortShape(p, false)
  {
    var o := p.fields;
    TopoPort(
      if "name" in o then Some(o["name"].s) else None,
      o["switch_name"].s,
      o["port_name"].s,
      if StrField(o, "switch_id") then Some(o["switch_id"].s) else None)
  }

  function DecodeNode(n: Json): Node
    requires NodeShape(n, false)
  {
    var items := n.fields["ports"].items;
    Node(n.fields["name"].s, seq(|items|, i requires 0 <= i < |items| => DecodePort(items[i])))
  }

  /** The typed topology read out of a document of the right shape. */
  function Decode(doc: Json): (t: Topology)
    requires DocShape(doc, false)
    ensures |t.nodes| == |NodeItems(doc)|
    ensures Names(t.nodes) == DocNames(doc)
  {
    var nodes := NodeItems(doc);
    var t := Topology(seq(|nodes|, i requires 0 <= i < |nodes| => assert NodeShape(nodes[i], false); DecodeNode(nodes[i])));
    assert Names(t.nodes) == DocNames(doc);
    t
  }

  function EncodePort(p: TopoPort): Json
  {
    var base := map["switch_name" := JStr(p.switchName), "port_name" := JStr(p.portName)];
    var named := if p.name.Some? then base["name" := JStr(p.name.value)] else base;
    JObj(if p.switchId.Some? then named["switch_id" := JStr(p.switchId.value)] else named)
  }

  function EncodeNode(n: Node): Json
  {
    JObj(map["name" := JStr(n.name), "ports" := JArr(seq(|n.ports|, i requires 0 <= i < |n.ports| => EncodePort(n.ports[i])))])
  }

  /** The document that describes a topology. */
  function Encode(t: Topology): Json
  {
    JObj(map["nodes" := JArr(seq(|t.nodes|, i requires 0 <= i < |t.nodes| => EncodeNode(t.nodes[i])))])
  }

  predicate HasSwitchIds(t: Topology)
  {
    forall i, j :: 0 <= i < |t.nodes| && 0 <= j < |t.nodes[i].ports| ==> t.nodes[i].ports[j].switchId.Some?
  }

  lemma EncodePortRoundTrip(p: TopoPort)
    ensures PortShape(EncodePort(p), p.switchId.Some?)
    ensures PortShape(EncodePort(p), false)
    ensures DecodePort(EncodePort(p)) == p
  {
    var o := EncodePort(p).fields;
    assert "switch_name" in o && "port_name" in o;
    assert "name" in o <==> p.name.Some?;
    assert "switch_id" in o <==> p.switchId.Some?;
  }

  lemma EncodeNodeRoundTrip(n: Node, requireSwitchId: bool)
    requires requireSwitchId ==> forall j :: 0 <= j < |n.ports| ==> n.ports[j].switchId.Some?
    ensures NodeShape(EncodeNode(n), requireSwitchId)
    ensures NodeShape(EncodeNode(n), false)
    ensures DecodeNode(EncodeNode(n)) == n
  {
    var items := EncodeNode(n).fields["ports"].items;
    forall j | 0 <= j < |n.ports|
      ensures PortShape(items[j], requireSwitchId) && PortShape(items[j], false) && DecodePort(items[j]) == n.ports[j]
    {
      EncodePortRoundTrip(n.ports[j]);
    }
    assert DecodeNode(EncodeNode(n)).ports == n.ports;
  }

  /** Every topology has a document of the shape the loaders accept (with
      `switch_id` wherever every port has one), and reading that document
      gives the topology back. */
  lemma EncodeRoundTrip(t: Topology)
    ensures DocShape(Encode(t), false)
    ensures HasSwitchIds(t) ==> DocShape(Encode(t), true)
    ensures Decode(Encode(t)) == t
  {
    var items := Encode(t).fields["nodes"].items;
    forall i | 0 <= i < |t.nodes|
      ensures NodeShape(items[i], false) && DecodeNode(items[i]) == t.nodes[i]
      ensures HasSwitchIds(t) ==> NodeShape(items[i], true)
    {
      EncodeNodeRoundTrip(t.nodes[i], false);
      if HasSwitchIds(t) { EncodeNodeRoundTrip(t.nodes[i], true); }
    }
    assert Decode(Encode(t)).nodes == t.nodes;
  }

  /** The node names of a topology, in order. */
  function Names(nodes: seq<Node>): (r: seq<string>)
    ensures |r| == |nodes|
    ensures forall i :: 0 <= i < |nodes| ==> r[i] == nodes[i].name
  {
    seq(|nodes|, i requires 0 <= i < |nodes| => nodes[i].name)
  }

  /** No name occurs twice. */
  predicate Distinct(s: seq<string>)
  {
    forall i, j :: 0 <= i < j < |s| ==> s[i] != s[j]
  }

  /** The Python set `{name for name in s}`. */
  function SetOf(s: seq<string>): set<string>
  {
    set x | x in s
  }

  lemma {:induction false} SetOfSize(s: seq<string>)
    ensures |SetOf(s)| <= |s|
  {
    if s != [] {
      var s' := s[..|s| - 1];
      SetOfSize(s');
      assert SetOf(s) == SetOf(s') + {s[|s| - 1]} by {
        assert s == s' + [s[|s| - 1]];
      }
    }
  }

  /** The set of names is as large as the list of nodes exactly when no name
      is repeated. */
  lemma {:induction false} DistinctIffSetSize(s: seq<string>)
    ensures |SetOf(s)| == |s| <==> Distinct(s)
  {
    if s != [] {
      var s', x := s[..|s| - 1], s[|s| - 1];
      DistinctIffSetSize(s');
      SetOfSize(s');
      assert s == s' + [x];
      assert SetOf(s) == SetOf(s') + {x};
      if x in s' {
        var k :| 0 <= k < |s'| && s'[k] == x;
        assert s[k] == s[|s| - 1];
        assert SetOf(s) == SetOf(s');
      } else {
        assert |SetOf(s)| == |SetOf(s')| + 1;
        if Distinct(s') {
          forall i, j | 0 <= i < j < |s| ensures s[i] != s[j] {
            if j == |s| - 1 { assert s[i] in s'; }
            else { assert s[i] == s'[i] && s[j] == s'[j]; }
          }
        } else {
          var i, j :| 0 <= i < j < |s'| && s'[i] == s'[j];
          assert s[i] == s[j];
        }
      }
    }
  }

  /** The nodes called `host`, in order: `[n for n in nodes if n['name'] == host]`. */
  function Matching(nodes: seq<Node>, host: Option<string>): (r: seq<Node>)
    ensures forall n :: n in r ==> n in nodes && host == Some(n.name)
  {
    if nodes == [] then []
    else if host == Some(nodes[0].name) then [nodes[0]] + Matching(nodes[1..], host)
    else Matching(nodes[1..], host)
  }

  /** Exactly one node is called `host`. */
  predicate ExactlyOne(nodes: seq<Node>, host: string)
  {
    exists k :: 0 <= k < |nodes| && nodes[k].name == host && forall j :: 0 <= j < |nodes| && nodes[j].name == host ==> j == k
  }

  /** The node lookup of a file-backed topology: the node called `host` when
      exactly one is, otherwise none. */
  function UniqueNode(t: Topology, host: Option<string>): (r: Option<Node>)
    ensures r.Some? ==> r.value in t.nodes && host == Some(r.value.name)
    ensures host.None? ==> r.None?
  {
    var ms := Matching(t.nodes, host);
    if |ms| == 1 then assert ms[0] in ms; Some(ms[0]) else None
  }

  lemma {:induction false} MatchingNone(nodes: seq<Node>)
    ensures Matching(nodes, None) == []
  {
    if nodes != [] { MatchingNone(nodes[1..]); }
  }

  lemma {:induction false} MatchingOnly(nodes: seq<Node>, k: nat)
    requires k < |nodes|
    requires forall j :: 0 <= j < |nodes| && nodes[j].name == nodes[k].name ==> j == k
    ensures Matching(nodes, Some(nodes[k].name)) == [nodes[k]]
  {
    if k == 0 {
      MatchingAbsent(nodes[1..], nodes[0].name);
    } else {
      MatchingOnly(nodes[1..], k - 1);
    }
  }

  lemma {:induction false} MatchingAbsent(nodes: seq<Node>, h: string)
    requires forall i :: 0 <= i < |nodes| ==> nodes[i].name != h
    ensures Matching(nodes, Some(h)) == []
  {
    if nodes != [] { MatchingAbsent(nodes[1..], h); }
  }

  /** The lookup finds a node exactly when one node, and only one, has the
      name asked for, and then it finds that node. */
  lemma UniqueNodeSpec(t: Topology, host: Option<string>)
    ensures UniqueNode(t, host).Some? <==> host.Some? && ExactlyOne(t.nodes, host.value)
    ensures forall k :: 0 <= k < |t.nodes| && host == Some(t.nodes[k].name) && UniqueNode(t, host).Some? ==> UniqueNode(t, host) == Some(t.nodes[k])
  {
    if host.None? {
      MatchingNone(t.nodes);
    } else if ExactlyOne(t.nodes, host.value) {
      UniqueNodeOfOne(t, host.value);
    } else {
      UniqueNodeOfNotOne(t, host.value);
    }
  }

  lemma UniqueNodeOfOne(t: Topology, h: string)
    requires ExactlyOne(t.nodes, h)
    ensures forall k :: 0 <= k < |t.nodes| && t.nodes[k].name == h ==> UniqueNode(t, Some(h)) == Some(t.nodes[k])
  {
    var k :| 0 <= k < |t.nodes| && t.nodes[k].name == h && forall j :: 0 <= j < |t.nodes| && t.nodes[j].name == h ==> j == k;
    MatchingOnly(t.nodes, k);
  }

  lemma UniqueNodeOfNotOne(t: Topology, h: string)
    requires !ExactlyOne(t.nodes, h)
    ensures UniqueNode(t, Some(h)).None?
  {
    NotOneMatching(t.nodes, h);
  }

  /** Not exactly one node called `h` means not exactly one match. */
  lemma NotOneMatching(nodes: seq<Node>, h: string)
    requires !ExactlyOne(nodes, h)
    ensures |Matching(nodes, Some(h))| != 1
  {
    if i :| 0 <= i < |nodes| && nodes[i].name == h {
      var j := OtherNamed(nodes, h, i);
      if i < j { MatchingTwo(nodes, i, j); } else { MatchingTwo(nodes, j, i); }
    } else {
      MatchingAbsent(nodes, h);
    }
  }

  lemma OtherNamed(nodes: seq<Node>, h: string, i: nat) returns (j: nat)
    requires !ExactlyOne(nodes, h) && i < |nodes| && nodes[i].name == h
    ensures j < |nodes| && nodes[j].name == h && j != i
  {
    assert !forall j :: 0 <= j < |nodes| && nodes[j].name == h ==> j == i;
    j :| 0 <= j < |nodes| && nodes[j].name == h && j != i;
  }

  /** In a topology without repeated names, such as every document the
      current loader accepts, a name of a node always finds that node. */
  lemma UniqueNodeOfDistinct(t: Topology, k: nat)
    requires Distinct(Names(t.nodes)) && k < |t.nodes|
    ensures UniqueNode(t, Some(t.nodes[k].name)) == Some(t.nodes[k])
  {
    forall j | 0 <= j < |t.nodes| && t.nodes[j].name == t.nodes[k].name ensures j == k { }
    MatchingOnly(t.nodes, k);
  }

  lemma {:induction false} MatchingTwo(nodes: seq<Node>, i: nat, j: nat)
    requires i < j < |nodes| && nodes[i].name == nodes[j].name
    ensures |Matching(nodes, Some(nodes[i].name))| >= 2
  {
    if i == 0 {
      MatchingContains(nodes[1..], j - 1);
    } else {
      MatchingTwo(nodes[1..], i - 1, j - 1);
    }
  }

  lemma {:induction false} MatchingContains(nodes: seq<Node>, j: nat)
    requires j < |nodes|
    ensures |Matching(nodes, Some(nodes[j].name))| >= 1
  {
    if j > 0 { MatchingContains(nodes[1..], j - 1); }
  }

  /** A name two nodes share is not managed: the lookup gives none. */
  lemma UniqueNodeOfDuplicate(t: Topology, i: nat, j: nat)
    requires i < j < |t.nodes| && t.nodes[i].name == t.nodes[j].name
    ensures UniqueNode(t, Some(t.nodes[i].name)).None?
  {
    MatchingTwo(t.nodes, i, j);
  }
}
