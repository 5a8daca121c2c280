/** The topology source of the current generation: a host's links come
    from the loaded document when there is one (file mode), and otherwise
    from the controller's Node, Port and PhysicalInterface objects (API
    mode). */
module DmTopologySource {
  import opened Base
  import opened Fabric
  import opened TopologyDocument
  import DmTopologyLoader

  /** `host_id in topology`: in file mode, the document has a unique node of
      that name; in API mode, the controller has a node of that hostname. */
  function Contains(topo: Option<Topology>, f: FabricState, host: string): (r: bool)
  {
    if topo.Some? then UniqueNode(topo.value, Some(host)).Some? else host in f.nodes
  }

  /** The entry the API walk makes for one controller port: nothing when no
      PI references it, otherwise its name and the switch and port of its
      first PI back-reference. */
  function PortLinks(p: ApiPort): (r: seq<TopoPort>)
    ensures |r| <= 1
    ensures r == [] <==> p.piBackRefs == []
  {
    if p.piBackRefs == [] then []
    else [TopoPort(Some(p.name), p.piBackRefs[0].switchName, p.piBackRefs[0].portName, None)]
  }

  /** The ports the walk collects for a list of port references, in order;
      None when a reference names no port (the AttributeError case). */
  function ApiLinks(f: FabricState, refs: seq<string>): (r: Option<seq<TopoPort>>)
    decreases |refs|
  {
    if refs == [] then Some([])
    else
      var u := refs[|refs| - 1];
      match ApiLinks(f, refs[..|refs| - 1])
      case None => None
      case Some(ps) => if u !in f.ports then None else Some(ps + PortLinks(f.ports[u]))
  }

  /** `_get_node_from_api`: every failure, including zero usable ports, is
      InvalidNode. */
  function NodeFromApi(f: FabricState, host: string): (r: Result<Node>)
  {
    if host !in f.nodes || f.nodes[host].portRefs.None? then Err(InvalidNode)
    else match ApiLinks(f, f.nodes[host].portRefs.value)
      case None => Err(InvalidNode)
      case Some(ps) => if ps == [] then Err(InvalidNode) else Ok(Node(host, ps))
  }

  /** `get_node`: the unique node of the document, or NodeNotFound, in file
      mode; the API walk otherwise. */
  function NodeLookup(topo: Option<Topology>, f: FabricState, host: string): (r: Result<Node>)
  {
    if topo.Some? then
      match UniqueNode(topo.value, Some(host))
      case None => Err(NodeNotFound)
      case Some(n) => Ok(n)
    else NodeFromApi(f, host)
  }

  /** The walk over a concatenation of reference lists is the walk over the
      first followed by the walk over the second. */
  lemma {:induction false} ApiLinksAppend(f: FabricState, a: seq<string>, b: seq<string>)
    ensures ApiLinks(f, a + b) ==
      if ApiLinks(f, a).Some? && ApiLinks(f, b).Some? then Some(ApiLinks(f, a).value + ApiLinks(f, b).value) else None
    decreases |b|
  {
    if b == [] {
      assert a + b == a;
      if ApiLinks(f, a).Some? { assert ApiLinks(f, a).value + [] == ApiLinks(f, a).value; }
    } else {
      var b' := b[..|b| - 1];
      ApiLinksAppend(f, a, b');
      assert (a + b)[..|a + b| - 1] == a + b';
      assert (a + b)[|a + b| - 1] == b[|b| - 1];
      if ApiLinks(f, a).Some? && ApiLinks(f, b').Some? && b[|b| - 1] in f.ports {
        assert ApiLinks(f, a).value + ApiLinks(f, b').value + PortLinks(f.ports[b[|b| - 1]])
          == ApiLinks(f, a).value + (ApiLinks(f, b').value + PortLinks(f.ports[b[|b| - 1]]));
      }
    }
  }

  /** The walk succeeds exactly when every reference names a port, and then
      it holds one entry for each port with a PI back-reference and nothing
      else. */
  lemma {:induction false} ApiLinksSpec(f: FabricState, refs: seq<string>)
    ensures ApiLinks(f, refs).Some? <==> forall k :: 0 <= k < |refs| ==> refs[k] in f.ports
    ensures ApiLinks(f, refs).Some? ==> forall t :: t in ApiLinks(f, refs).value <==>
      exists k :: 0 <= k < |refs| && refs[k] in f.ports && t in PortLinks(f.ports[refs[k]])
    ensures ApiLinks(f, refs) == Some([]) <==> forall k :: 0 <= k < |refs| ==> refs[k] in f.ports && f.ports[refs[k]].piBackRefs == []
    decreases |refs|
  {
    if refs != [] {
      var r', u := refs[..|refs| - 1], refs[|refs| - 1];
      ApiLinksSpec(f, r');
      assert forall k :: 0 <= k < |r'| ==> r'[k] == refs[k];
      if ApiLinks(f, refs).Some? {
        var ps := ApiLinks(f, r').value;
        forall t ensures t in ApiLinks(f, refs).value <==>
          exists k :: 0 <= k < |refs| && refs[k] in f.ports && t in PortLinks(f.ports[refs[k]])
        {
          if t in PortLinks(f.ports[u]) { assert refs[|refs| - 1] == u; }
          if k :| 0 <= k < |refs| && refs[k] in f.ports && t in PortLinks(f.ports[refs[k]]) {
            if k < |r'| { assert t in ps; }
          }
        }
      }
    }
  }

  /** One reference to a port contributes exactly that port's link, if it
      has one; with ApiLinksAppend this fixes the whole walk, in reference
      order. */
  lemma ApiLinksSingle(f: FabricState, u: string)
    ensures u in f.ports ==> ApiLinks(f, [u]) == Some(PortLinks(f.ports[u]))
    ensures u !in f.ports ==> ApiLinks(f, [u]) == None
  {
    assert [u][..0] == [];
    if u in f.ports {
      assert ApiLinks(f, [u]) == Some([] + PortLinks(f.ports[u]));
      assert [] + PortLinks(f.ports[u]) == PortLinks(f.ports[u]);
    }
  }

  /** The positions of the references that name a port with a PI
      back-reference. */
  ghost function LinkedPositions(f: FabricState, refs: seq<string>): set<int>
  {
    set k | 0 <= k < |refs| && refs[k] in f.ports && f.ports[refs[k]].piBackRefs != []
  }

  /** A successful walk holds exactly one entry per reference that names a
      port with a PI back-reference. */
  lemma {:induction false} ApiLinksCount(f: FabricState, refs: seq<string>)
    ensures ApiLinks(f, refs).Some? ==> |ApiLinks(f, refs).value| == |LinkedPositions(f, refs)|
    decreases |refs|
  {
    if refs == [] {
      assert LinkedPositions(f, refs) == {};
    } else if ApiLinks(f, refs).Some? {
      var r', u := refs[..|refs| - 1], refs[|refs| - 1];
      ApiLinksCount(f, r');
      var a, b := LinkedPositions(f, r'), LinkedPositions(f, refs);
      assert forall k :: 0 <= k < |r'| ==> r'[k] == refs[k];
      if f.ports[u].piBackRefs != [] {
        assert b == a + {|refs| - 1};
        assert |refs| - 1 !in a;
      } else {
        assert b == a;
      }
    }
  }

  /** In file mode membership is the existence of exactly one node of that
      name, and the lookup gives that node unchanged; otherwise the lookup
      fails with NodeNotFound. */
  lemma FileModeLookup(t: Topology, f: FabricState, host: string)
    ensures Contains(Some(t), f, host) <==> ExactlyOne(t.nodes, host)
    ensures NodeLookup(Some(t), f, host).Ok? <==> Contains(Some(t), f, host)
    ensures forall k :: 0 <= k < |t.nodes| && t.nodes[k].name == host && Contains(Some(t), f, host) ==>
      NodeLookup(Some(t), f, host) == Ok(t.nodes[k])
    ensures NodeLookup(Some(t), f, host).Err? ==> NodeLookup(Some(t), f, host).error == NodeNotFound
  {
    UniqueNodeSpec(t, Some(host));
  }

  /** In API mode membership is the presence of the controller node; a
      lookup that succeeds gives a node of that name with at least one port,
      each port taken from a referenced controller port with a PI
      back-reference; every failure is InvalidNode. */
  lemma ApiModeLookup(f: FabricState, host: string)
    ensures Contains(None, f, host) <==> host in f.nodes
    ensures NodeLookup(None, f, host).Ok? ==> Contains(None, f, host)
    ensures NodeLookup(None, f, host).Ok? ==>
      var n := NodeLookup(None, f, host).value;
      var refs := f.nodes[host].portRefs.value;
      && n.name == host && n.ports != []
      && forall t :: t in n.ports <==> exists k :: 0 <= k < |refs| && refs[k] in f.ports && t in PortLinks(f.ports[refs[k]])
    ensures NodeLookup(None, f, host).Err? ==> NodeLookup(None, f, host).error == InvalidNode
    ensures host in f.nodes && f.nodes[host].portRefs.Some? && (exists k :: 0 <= k < |f.nodes[host].portRefs.value| && f.nodes[host].portRefs.value[k] !in f.ports)
      ==> NodeLookup(None, f, host) == Err(InvalidNode)
    ensures host in f.nodes && f.nodes[host].portRefs.Some? ==>
      var refs := f.nodes[host].portRefs.value;
      ((forall k :: 0 <= k < |refs| ==> refs[k] in f.ports) && (exists k :: 0 <= k < |refs| && refs[k] in f.ports && f.ports[refs[k]].piBackRefs != []))
      ==> ApiLinks(f, refs).Some? && NodeLookup(None, f, host) == Ok(Node(host, ApiLinks(f, refs).value))
  {
    if host in f.nodes && f.nodes[host].portRefs.Some? {
      ApiLinksSpec(f, f.nodes[host].portRefs.value);
    }
  }

  /** Neither mode's lookup depends on anything but the controller's nodes
      and ports, so creating or deleting VMIs and updating VPGs leaves
      membership and every lookup as they were. */
  lemma {:induction false} LookupFrame(topo: Option<Topology>, f: FabricState, g: FabricState, host: string)
    requires f.nodes == g.nodes && f.ports == g.ports
    ensures Contains(topo, f, host) == Contains(topo, g, host)
    ensures NodeLookup(topo, f, host) == NodeLookup(topo, g, host)
  {
    if topo.None? && host in f.nodes && f.nodes[host].portRefs.Some? {
      ApiLinksFrame(f, g, f.nodes[host].portRefs.value);
    }
  }

  lemma {:induction false} ApiLinksFrame(f: FabricState, g: FabricState, refs: seq<string>)
    requires f.ports == g.ports
    ensures ApiLinks(f, refs) == ApiLinks(g, refs)
    decreases |refs|
  {
    if refs != [] { ApiLinksFrame(f, g, refs[..|refs| - 1]); }
  }

  /** The topology object: the controller it reads and the document once
      `initialize` has loaded one. */
  class DmTopology {
    const tf: Controller
    var topology: Option<Topology>

    constructor (tf: Controller)
      ensures this.tf == tf && topology.None?
    {
      this.tf := tf;
      topology := None;
    }

    /** `initialize`: a failed load propagates and leaves API mode on. */
    method Initialize(path: string, doc: Json) returns (o: Outcome)
      modifies this
      ensures DmTopologyLoader.Load(path, doc).Ok? ==> topology == Some(DmTopologyLoader.Load(path, doc).value) && o == Done
      ensures DmTopologyLoader.Load(path, doc).Err? ==> topology == old(topology) && o == Failed(DmTopologyLoader.Load(path, doc).error)
    {
      var r := DmTopologyLoader.Load(path, doc);
      if r.Ok? {
        topology := Some(r.value);
        o := Done;
      } else {
        o := Failed(r.error);
      }
    }

    /** `get_node`. */
    method GetNode(host: string) returns (r: Result<Node>)
      ensures r == NodeLookup(topology, tf.State(), host)
    {
      if topology.Some? {
        var n := UniqueNode(topology.value, Some(host));
        if n.None? {
          return Err(NodeNotFound);
        }
        return Ok(n.value);
      }
      r := GetNodeFromApi(host);
    }

    /** `_get_node_from_api`: the walk over the node's port references. */
    method GetNodeFromApi(host: string) returns (r: Result<Node>)
      ensures r == NodeFromApi(tf.State(), host)
    {
      var f := tf.State();
      if host !in tf.nodes || tf.nodes[host].portRefs.None? {
        return Err(InvalidNode);
      }
      var refs := tf.nodes[host].portRefs.value;
      var ports: seq<TopoPort> := [];
      var i := 0;
      while i < |refs|
        invariant 0 <= i <= |refs|
        invariant ApiLinks(f, refs[..i]) == Some(ports)
      {
        assert refs[..i + 1][..i] == refs[..i];
        if refs[i] !in tf.ports {
          ApiLinksAppend(f, refs[..i + 1], refs[i + 1..]);
          assert refs[..i + 1] + refs[i + 1..] == refs;
          return Err(InvalidNode);
        }
        var port := tf.ports[refs[i]];
        assert ApiLinks(f, refs[..i + 1]) == Some(ports + PortLinks(port));
        if port.piBackRefs != [] {
          ports := ports + [TopoPort(Some(port.name), port.piBackRefs[0].switchName, port.piBackRefs[0].portName, None)];
        } else {
          assert ports + PortLinks(port) == ports;
        }
        i := i + 1;
      }
      assert refs[..i] == refs;
      if |ports| == 0 {
        return Err(InvalidNode);
      }
      return Ok(Node(host, ports));
    }
  }
}
