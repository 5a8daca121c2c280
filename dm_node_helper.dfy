/** The node helper of the earlier design: file-backed only, it binds a host
    by the first port of its node and reuses the first automatic VPG on that
    port's PI, without comparing PI sets. */
module DmNodes {
  import opened Base
  import opened Fabric
  import opened TopologyDocument
  import DmTopologyLoader

  /** `_get_node_from_file`; before `initialize` the topology attribute does
      not exist, which is an AttributeError. */
  function NodeFromFile(topo: Option<Topology>, host: Option<string>): (r: Result<Option<Node>>)
    ensures topo.None? <==> r.Err?
    ensures r.Err? ==> r.error == MissingObject
  {
    if topo.None? then Err(MissingObject) else Ok(UniqueNode(topo.value, host))
  }

  /** `get_bindings_for_node`. */
  function NodeBindings(topo: Option<Topology>, f: FabricState, host: Option<string>): (r: Result<seq<KeyValue>>)
  {
    match NodeFromFile(topo, host)
    case Err(e) => Err(e)
    case Ok(found) =>
      if found.None? then Err(NodeNotFound)
      else if found.value.ports == [] then Err(EmptyPortList)
      else
        var p := found.value.ports[0];
        match FabricName(f, p.switchName)
        case None => Err(FabricNotFound)
        case Some(fabric) =>
          var profile := Profile([LocalLink(p.portName, None, p.switchName, fabric)]);
          match AutoVpgOnPi(f, PiName(p.switchName, p.portName))
          case Err(e) => Err(e)
          case Ok(vpg) =>
            if vpg.Some? && vpg.value != "" then Ok([profile, VnicType(BAREMETAL), VpgBinding(vpg.value)])
            else Ok([profile, VnicType(BAREMETAL)])
  }

  /** A host is managed exactly when one node, and only one, carries its
      name: an unknown name, None and a name two nodes share are not. */
  lemma NodeManagedSpec(t: Topology, host: Option<string>)
    ensures NodeFromFile(Some(t), host).value.Some? <==> host.Some? && ExactlyOne(t.nodes, host.value)
    ensures host.None? ==> NodeFromFile(Some(t), host) == Ok(None)
    ensures forall i, j :: 0 <= i < j < |t.nodes| && host == Some(t.nodes[i].name) && t.nodes[j].name == t.nodes[i].name ==>
      NodeFromFile(Some(t), host) == Ok(None)
  {
    UniqueNodeSpec(t, host);
    forall i, j | 0 <= i < j < |t.nodes| && host == Some(t.nodes[i].name) && t.nodes[j].name == t.nodes[i].name
      ensures NodeFromFile(Some(t), host) == Ok(None)
    {
      UniqueNodeOfDuplicate(t, i, j);
    }
  }

  /** An unmanaged host fails with NodeNotFound whatever the controller
      holds, so no controller data are consulted; a managed one is bound by
      its first port alone. */
  lemma NodeBindingsSpec(t: Topology, f: FabricState, host: Option<string>)
    ensures UniqueNode(t, host).None? ==> forall g :: NodeBindings(Some(t), g, host) == Err(NodeNotFound)
    ensures UniqueNode(t, host).Some? && UniqueNode(t, host).value.ports != [] ==>
      var p := UniqueNode(t, host).value.ports[0];
      && (FabricName(f, p.switchName).None? ==> NodeBindings(Some(t), f, host) == Err(FabricNotFound))
      && (FabricName(f, p.switchName).Some? && PiName(p.switchName, p.portName) !in f.pis ==>
            NodeBindings(Some(t), f, host) == Ok([Profile([LocalLink(p.portName, None, p.switchName, f.fabrics[p.switchName])]), VnicType(BAREMETAL)]))
    ensures NodeBindings(Some(t), f, host).Ok? ==>
      var b := NodeBindings(Some(t), f, host).value;
      var p := UniqueNode(t, host).value.ports[0];
      var vpg := AutoVpgOnPi(f, PiName(p.switchName, p.portName));
      && UniqueNode(t, host).Some? && UniqueNode(t, host).value.ports != []
      && 2 <= |b| <= 3
      && b[0] == Profile([LocalLink(p.portName, None, p.switchName, f.fabrics[p.switchName])])
      && b[1] == VnicType(BAREMETAL)
      && (|b| == 3 <==> vpg.Ok? && vpg.value.Some? && vpg.value.value != "")
      && (|b| == 3 ==> b[2] == VpgBinding(vpg.value.value))
    ensures UniqueNode(t, host).Some? && UniqueNode(t, host).value.ports != [] ==>
      var p := UniqueNode(t, host).value.ports[0];
      (FabricName(f, p.switchName).Some? && AutoVpgOnPi(f, PiName(p.switchName, p.portName)).Ok?) ==> NodeBindings(Some(t), f, host).Ok?
    ensures NodeBindings(Some(t), f, host).Err? ==>
      NodeBindings(Some(t), f, host).error in {NodeNotFound, EmptyPortList, FabricNotFound, MissingObject}
  {
    if UniqueNode(t, host).Some? && UniqueNode(t, host).value.ports != [] {
      var p := UniqueNode(t, host).value.ports[0];
      var pi := PiName(p.switchName, p.portName);
      if pi in f.pis { FirstAutoVpgError(f, f.pis[pi].vpgBackRefs); }
    }
  }

  /** The helper object: the controller client and, once initialized, the
      topology document. */
  class DmNodeHelper {
    const tf: Controller
    var topology: Option<Topology>

    constructor (tf: Controller)
      ensures this.tf == tf && topology.None?
    {
      this.tf := tf;
      topology := None;
    }

    /** `initialize`: a failed load propagates. */
    method Initialize(path: string, doc: Json) returns (o: Outcome)
      modifies this
      ensures DmTopologyLoader.Load(path, doc).Ok? ==> topology == Some(DmTopologyLoader.Load(path, doc).value) && o == Done
      ensures DmTopologyLoader.Load(path, doc).Err? ==> topology == old(topology) && o == Failed(DmTopologyLoader.Load(path, doc).error)
    {
      var r := DmTopologyLoader.Load(path, doc);
      if r.Ok? {
        topology := Some(r.value);
        o := Done;
      } else {
        o := Failed(r.error);
      }
    }

    /** `check_node_managed`. */
    method CheckNodeManaged(host: Option<string>) returns (r: Result<bool>)
      ensures r.Err? <==> NodeFromFile(topology, host).Err?
      ensures r.Err? ==> r.error == MissingObject
      ensures r.Ok? ==> (r.value <==> NodeFromFile(topology, host).value.Some?)
    {
      if topology.None? {
        return Err(MissingObject);
      }
      r := Ok(UniqueNode(topology.value, host).Some?);
    }

    /** `get_bindings_for_node`. */
    method GetBindingsForNode(host: Option<string>) returns (r: Result<seq<KeyValue>>)
      ensures r == NodeBindings(topology, tf.State(), host)
    {
      if topology.None? {
        return Err(MissingObject);
      }
      var node := UniqueNode(topology.value, host);
      if node.None? {
        return Err(NodeNotFound);
      }
      if node.value.ports == [] {
        return Err(EmptyPortList);
      }
      var nodePort := node.value.ports[0];
      var fabric := FabricName(tf.State(), nodePort.switchName);
      if fabric.None? {
        return Err(FabricNotFound);
      }
      var bindings := [Profile([LocalLink(nodePort.portName, None, nodePort.switchName, fabric.value)]), VnicType(BAREMETAL)];
      var vpg := FindExistingVpg(nodePort.switchName, nodePort.portName);
      if vpg.Err? {
        return Err(vpg.error);
      }
      if vpg.value.Some? && vpg.value.value != "" {
        bindings := bindings + [VpgBinding(vpg.value.value)];
        assert bindings == [bindings[0], VnicType(BAREMETAL), VpgBinding(vpg.value.value)];
      }
      return Ok(bindings);
    }

    /** `_find_existing_vpg(switch, port)`: the first back-referenced VPG
      that is not user-created; none when the PI is missing. */
    method FindExistingVpg(switchName: string, portName: string) returns (r: Result<Option<string>>)
      ensures r == AutoVpgOnPi(tf.State(), PiName(switchName, portName))
    {
      var f := tf.State();
      var pi := PiName(switchName, portName);
      if pi !in tf.pis {
        return Ok(None);
      }
      var refs := tf.pis[pi].vpgBackRefs;
      var i := 0;
      while i < |refs|
        invariant 0 <= i <= |refs|
        invariant FirstAutoVpg(f, refs[i..]) == FirstAutoVpg(f, refs)
      {
        assert refs[i..][1..] == refs[i + 1..];
        if refs[i] !in tf.vpgs {
          return Err(MissingObject);
        }
        var vpg := tf.vpgs[refs[i]];
        if !vpg.userCreated {
          return Ok(Some(vpg.name));
        }
        i := i + 1;
      }
      return Ok(None);
    }
  }
}
