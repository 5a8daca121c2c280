/** The bindings helper of the current generation: the local-link profile of
    every link of a host, the baremetal VNIC type and, when one exists, an
    automatically created VPG that aggregates exactly the host's links. */
module DmBindings {
  import opened Base
  import opened Fabric
  import opened TopologyDocument
  import opened DmTopologySource

  /** The PI a topology port stands for: (switch_name, port_name). */
  function PortPi(p: TopoPort): PiName
  {
    PiName(p.switchName, p.portName)
  }

  /** `_check_refs_to_all_ports`: the PIs of the ports, as a set, are the
      PIs the VPG references, as a set. */
  predicate RefsCoverAllPorts(piRefs: seq<PiName>, ports: seq<TopoPort>)
  {
    (set p | p in ports :: PortPi(p)) == (set r | r in piRefs)
  }

  /** Set equality, element by element: every port's PI is referenced and
      every reference is some port's PI, so a VPG over a strict subset or a
      strict superset of the host's links does not qualify. */
  lemma RefsCoverAllPortsSpec(piRefs: seq<PiName>, ports: seq<TopoPort>)
    ensures RefsCoverAllPorts(piRefs, ports) <==>
      (forall p :: p in ports ==> PortPi(p) in piRefs) && (forall r :: r in piRefs ==> exists p :: p in ports && PortPi(p) == r)
  {
    var required := set p | p in ports :: PortPi(p);
    var existing := set r | r in piRefs;
    if (forall p :: p in ports ==> PortPi(p) in piRefs) && (forall r :: r in piRefs ==> exists p :: p in ports && PortPi(p) == r) {
      forall x ensures x in required <==> x in existing {
        if x in existing { var p :| p in ports && PortPi(p) == x; }
      }
      assert required == existing;
    }
    if required == existing {
      forall r | r in piRefs ensures exists p :: p in ports && PortPi(p) == r {
        assert r in existing;
      }
      forall p | p in ports ensures PortPi(p) in piRefs {
        assert PortPi(p) in required;
      }
    }
  }

  /** The `local_link_information` of the ports, built in port order; the
      first switch without a fabric name makes the whole of it fail. */
  function Links(f: FabricState, ports: seq<TopoPort>): (r: Result<seq<LocalLink>>)
    decreases |ports|
  {
    if ports == [] then Ok([])
    else
      var p := ports[|ports| - 1];
      match Links(f, ports[..|ports| - 1])
      case Err(e) => Err(e)
      case Ok(ls) =>
        match FabricName(f, p.switchName)
        case None => Err(FabricNotFound)
        case Some(fabric) => Ok(ls + [LocalLink(p.portName, None, p.switchName, fabric)])
  }

  /** The profile fails, with FabricNotFound, exactly when some port's switch
      has no fabric name; otherwise it holds one entry per port, in port
      order, naming the port, its switch and that switch's fabric. */
  lemma {:induction false} LinksSpec(f: FabricState, ports: seq<TopoPort>)
    ensures Links(f, ports).Ok? <==> forall k :: 0 <= k < |ports| ==> FabricName(f, ports[k].switchName).Some?
    ensures Links(f, ports).Err? ==> Links(f, ports).error == FabricNotFound
    ensures Links(f, ports).Ok? ==> |Links(f, ports).value| == |ports|
    ensures Links(f, ports).Ok? ==>
      forall k :: 0 <= k < |ports| ==> Links(f, ports).value[k] == LocalLink(ports[k].portName, None, ports[k].switchName, f.fabrics[ports[k].switchName])
    decreases |ports|
  {
    if ports != [] {
      var ps := ports[..|ports| - 1];
      LinksSpec(f, ps);
      assert forall k :: 0 <= k < |ps| ==> ps[k] == ports[k];
    }
  }

  /** A VPG the search passes over: one an operator made, or one whose PIs
      are not exactly the host's. */
  predicate Skipped(f: FabricState, uuid: string, ports: seq<TopoPort>)
  {
    uuid in f.vpgs && (f.vpgs[uuid].userCreated || !RefsCoverAllPorts(f.vpgs[uuid].piRefs, ports))
  }

  /** The loop of `_find_existing_vpg` over the PI's VPG back-references; a
      reference to an absent VPG fails on the None. */
  function ReusableVpg(f: FabricState, uuids: seq<string>, ports: seq<TopoPort>): (r: Result<Option<string>>)
  {
    if uuids == [] then Ok(None)
    else if uuids[0] !in f.vpgs then Err(MissingObject)
    else if f.vpgs[uuids[0]].userCreated then ReusableVpg(f, uuids[1..], ports)
    else if RefsCoverAllPorts(f.vpgs[uuids[0]].piRefs, ports) then Ok(Some(f.vpgs[uuids[0]].name))
    else ReusableVpg(f, uuids[1..], ports)
  }

  /** The search never picks a user-created VPG: what it finds is the first
      VPG, in back-reference order, that is automatic and covers exactly the
      host's PIs, every earlier one being passed over; it finds none exactly
      when every VPG is passed over. */
  lemma {:induction false} ReusableVpgSpec(f: FabricState, uuids: seq<string>, ports: seq<TopoPort>)
    ensures ReusableVpg(f, uuids, ports).Ok? && ReusableVpg(f, uuids, ports).value.Some? ==>
      exists k :: 0 <= k < |uuids| && uuids[k] in f.vpgs && !f.vpgs[uuids[k]].userCreated
        && RefsCoverAllPorts(f.vpgs[uuids[k]].piRefs, ports)
        && ReusableVpg(f, uuids, ports).value.value == f.vpgs[uuids[k]].name
        && forall j :: 0 <= j < k ==> Skipped(f, uuids[j], ports)
    ensures ReusableVpg(f, uuids, ports) == Ok(None) <==> forall j :: 0 <= j < |uuids| ==> Skipped(f, uuids[j], ports)
    ensures ReusableVpg(f, uuids, ports).Err? ==> ReusableVpg(f, uuids, ports).error == MissingObject
  {
    if uuids != [] && Skipped(f, uuids[0], ports) {
      var rest := uuids[1..];
      ReusableVpgSpec(f, rest, ports);
      var r := ReusableVpg(f, uuids, ports);
      assert r == ReusableVpg(f, rest, ports);
      if r.Ok? && r.value.Some? {
        var k :| 0 <= k < |rest| && rest[k] in f.vpgs && !f.vpgs[rest[k]].userCreated
          && RefsCoverAllPorts(f.vpgs[rest[k]].piRefs, ports)
          && r.value.value == f.vpgs[rest[k]].name
          && forall j :: 0 <= j < k ==> Skipped(f, rest[j], ports);
        assert uuids[k + 1] == rest[k];
        forall j | 0 <= j < k + 1 ensures Skipped(f, uuids[j], ports) {
          if j > 0 { assert uuids[j] == rest[j - 1]; }
        }
      }
      if forall j :: 0 <= j < |rest| ==> Skipped(f, rest[j], ports) {
        forall j | 0 <= j < |uuids| ensures Skipped(f, uuids[j], ports) {
          if j > 0 { assert uuids[j] == rest[j - 1]; }
        }
      }
    }
  }

  /** An automatic VPG over exactly the host's PIs, preceded only by VPGs
      the search passes over, is the one found. */
  lemma {:induction false} ReusableVpgFound(f: FabricState, uuids: seq<string>, ports: seq<TopoPort>, k: nat)
    requires k < |uuids| && uuids[k] in f.vpgs && !f.vpgs[uuids[k]].userCreated
    requires RefsCoverAllPorts(f.vpgs[uuids[k]].piRefs, ports)
    requires forall j :: 0 <= j < k ==> Skipped(f, uuids[j], ports)
    ensures ReusableVpg(f, uuids, ports) == Ok(Some(f.vpgs[uuids[k]].name))
  {
    if k > 0 {
      assert Skipped(f, uuids[0], ports);
      assert forall j :: 0 <= j < k - 1 ==> uuids[1..][j] == uuids[j + 1];
      ReusableVpgFound(f, uuids[1..], ports, k - 1);
    }
  }

  /** The search fails only on a back-reference to an absent VPG reached
      after VPGs it passed over, and then with MissingObject. */
  lemma {:induction false} ReusableVpgError(f: FabricState, uuids: seq<string>, ports: seq<TopoPort>)
    ensures ReusableVpg(f, uuids, ports).Err? ==>
      && ReusableVpg(f, uuids, ports).error == MissingObject
      && exists k :: 0 <= k < |uuids| && uuids[k] !in f.vpgs && forall j :: 0 <= j < k ==> Skipped(f, uuids[j], ports)
  {
    if uuids != [] && Skipped(f, uuids[0], ports) {
      var rest := uuids[1..];
      ReusableVpgError(f, rest, ports);
      if ReusableVpg(f, rest, ports).Err? {
        var k :| 0 <= k < |rest| && rest[k] !in f.vpgs && forall j :: 0 <= j < k ==> Skipped(f, rest[j], ports);
        assert uuids[k + 1] == rest[k];
        forall j | 0 <= j < k + 1 ensures Skipped(f, uuids[j], ports) {
          if j > 0 { assert uuids[j] == rest[j - 1]; }
        }
      }
    }
  }

  /** `_find_existing_vpg(ports)`: the PI of the first port must exist. */
  function ExistingVpg(f: FabricState, ports: seq<TopoPort>): (r: Result<Option<string>>)
    ensures r.Err? ==> r.error in {EmptyPortList, PhysicalInterfaceNotFound, MissingObject}
  {
    if ports == [] then Err(EmptyPortList)
    else if PortPi(ports[0]) !in f.pis then Err(PhysicalInterfaceNotFound)
    else
      ReusableVpgError(f, f.pis[PortPi(ports[0])].vpgBackRefs, ports);
      ReusableVpg(f, f.pis[PortPi(ports[0])].vpgBackRefs, ports)
  }

  /** The bindings of a node: profile, `vnic_type=baremetal`, and `vpg` when
      a VPG with a non-empty name is found. */
  function NodeBindings(f: FabricState, n: Node): (r: Result<seq<KeyValue>>)
  {
    match Links(f, n.ports)
    case Err(e) => Err(e)
    case Ok(ls) =>
      match ExistingVpg(f, n.ports)
      case Err(e) => Err(e)
      case Ok(vpg) =>
        if vpg.Some? && vpg.value != "" then Ok([Profile(ls), VnicType(BAREMETAL), VpgBinding(vpg.value)])
        else Ok([Profile(ls), VnicType(BAREMETAL)])
  }

  /** `get_bindings_for_host`. */
  function BindingsForHost(topo: Option<Topology>, f: FabricState, host: string): (r: Result<seq<KeyValue>>)
  {
    match NodeLookup(topo, f, host)
    case Err(e) => Err(e)
    case Ok(n) => NodeBindings(f, n)
  }

  /** What the bindings of a host are, and when there are none. */
  lemma BindingsForHostSpec(topo: Option<Topology>, f: FabricState, host: string)
    ensures NodeLookup(topo, f, host).Err? ==> BindingsForHost(topo, f, host) == Err(NodeLookup(topo, f, host).error)
    ensures NodeLookup(topo, f, host).Ok? ==>
      var n := NodeLookup(topo, f, host).value;
      && ((exists k :: 0 <= k < |n.ports| && FabricName(f, n.ports[k].switchName).None?) ==> BindingsForHost(topo, f, host) == Err(FabricNotFound))
      && (n.ports == [] ==> BindingsForHost(topo, f, host) == Err(EmptyPortList))
      && (Links(f, n.ports).Ok? && n.ports != [] && PortPi(n.ports[0]) !in f.pis ==> BindingsForHost(topo, f, host) == Err(PhysicalInterfaceNotFound))
    ensures BindingsForHost(topo, f, host).Ok? ==>
      var n := NodeLookup(topo, f, host).value;
      var b := BindingsForHost(topo, f, host).value;
      && NodeLookup(topo, f, host).Ok?
      && 2 <= |b| <= 3
      && b[0].Profile? && |b[0].links| == |n.ports|
      && (forall k :: 0 <= k < |n.ports| ==> b[0].links[k] == LocalLink(n.ports[k].portName, None, n.ports[k].switchName, f.fabrics[n.ports[k].switchName]))
      && b[1] == VnicType(BAREMETAL)
      && (|b| == 3 <==> ExistingVpg(f, n.ports).Ok? && ExistingVpg(f, n.ports).value.Some? && ExistingVpg(f, n.ports).value.value != "")
      && (|b| == 3 ==> b[2] == VpgBinding(ExistingVpg(f, n.ports).value.value))
    ensures NodeLookup(topo, f, host).Ok? ==>
      var n := NodeLookup(topo, f, host).value;
      ((forall k :: 0 <= k < |n.ports| ==> FabricName(f, n.ports[k].switchName).Some?) && n.ports != [] && PortPi(n.ports[0]) in f.pis
        && ReusableVpg(f, f.pis[PortPi(n.ports[0])].vpgBackRefs, n.ports).Ok?) ==> BindingsForHost(topo, f, host).Ok?
    ensures BindingsForHost(topo, f, host).Err? ==>
      BindingsForHost(topo, f, host).error in {NodeNotFound, InvalidNode, FabricNotFound, EmptyPortList, PhysicalInterfaceNotFound, MissingObject}
  {
    if topo.Some? { FileModeLookup(topo.value, f, host); } else { ApiModeLookup(f, host); }
    if NodeLookup(topo, f, host).Ok? {
      var n := NodeLookup(topo, f, host).value;
      LinksSpec(f, n.ports);
      if n.ports != [] && PortPi(n.ports[0]) in f.pis {
        ReusableVpgError(f, f.pis[PortPi(n.ports[0])].vpgBackRefs, n.ports);
      }
    }
  }

  /** The helper object: the controller client and the topology it asks. */
  class DmBindingsHelper {
    const tf: Controller
    const topology: DmTopology

    constructor (tf: Controller)
      ensures this.tf == tf && Valid() && fresh(topology) && topology.topology.None?
    {
      this.tf := tf;
      topology := new DmTopology(tf);
    }

    predicate Valid()
    {
      topology.tf == tf
    }

    /** `initialize`. */
    method Initialize(path: string, doc: Json) returns (o: Outcome)
      modifies topology
      ensures DmTopologyLoader.Load(path, doc).Ok? ==> topology.topology == Some(DmTopologyLoader.Load(path, doc).value) && o == Done
      ensures DmTopologyLoader.Load(path, doc).Err? ==> topology.topology == old(topology.topology) && o == Failed(DmTopologyLoader.Load(path, doc).error)
    {
      o := topology.Initialize(path, doc);
    }

    /** `check_host_managed`: topology membership. */
    method CheckHostManaged(host: string) returns (r: bool)
      ensures r == Contains(topology.topology, tf.State(), host)
    {
      if topology.topology.Some? {
        r := UniqueNode(topology.topology.value, Some(host)).Some?;
      } else {
        r := host in tf.nodes;
      }
    }

    /** `get_bindings_for_host`: the profile loop, then the VPG search. */
    method GetBindingsForHost(host: string) returns (r: Result<seq<KeyValue>>)
      requires Valid()
      ensures r == BindingsForHost(topology.topology, tf.State(), host)
    {
      var f := tf.State();
      var found := topology.GetNode(host);
      if found.Err? {
        return Err(found.error);
      }
      var node := found.value;
      LinksSpec(f, node.ports);
      var profiles: seq<LocalLink> := [];
      var i := 0;
      while i < |node.ports|
        invariant 0 <= i <= |node.ports|
        invariant forall k :: 0 <= k < i ==> FabricName(f, node.ports[k].switchName).Some?
        invariant |profiles| == i
        invariant forall k :: 0 <= k < i ==> profiles[k] == LocalLink(node.ports[k].portName, None, node.ports[k].switchName, f.fabrics[node.ports[k].switchName])
      {
        var port := node.ports[i];
        var fabric := FabricName(f, port.switchName);
        if fabric.None? {
          return Err(FabricNotFound);
        }
        profiles := profiles + [LocalLink(port.portName, None, port.switchName, fabric.value)];
        i := i + 1;
      }
      assert profiles == Links(f, node.ports).value;
      var bindings := [Profile(profiles), VnicType(BAREMETAL)];
      var vpg := FindExistingVpg(node.ports);
      if vpg.Err? {
        return Err(vpg.error);
      }
      assert found == NodeLookup(topology.topology, f, host);
      assert Links(f, node.ports) == Ok(profiles);
      assert vpg == ExistingVpg(f, node.ports);
      if vpg.value.Some? && vpg.value.value != "" {
        bindings := bindings + [VpgBinding(vpg.value.value)];
        assert bindings == [Profile(profiles), VnicType(BAREMETAL), VpgBinding(vpg.value.value)];
      }
      return Ok(bindings);
    }

    /** `_find_existing_vpg(ports)`: a loop with `continue` and an early
      return. */
    method FindExistingVpg(ports: seq<TopoPort>) returns (r: Result<Option<string>>)
      ensures r == ExistingVpg(tf.State(), ports)
    {
      var f := tf.State();
      if ports == [] {
        return Err(EmptyPortList);
      }
      var pi := PortPi(ports[0]);
      if pi !in tf.pis {
        return Err(PhysicalInterfaceNotFound);
      }
      var refs := tf.pis[pi].vpgBackRefs;
      var i := 0;
      while i < |refs|
        invariant 0 <= i <= |refs|
        invariant ReusableVpg(f, refs[i..], ports) == ReusableVpg(f, refs, ports)
      {
        assert refs[i..][1..] == refs[i + 1..];
        if refs[i] !in tf.vpgs {
          return Err(MissingObject);
        }
        var vpg := tf.vpgs[refs[i]];
        if vpg.userCreated {
          i := i + 1;
          continue;
        }
        if RefsCoverAllPorts(vpg.piRefs, ports) {
          return Ok(Some(vpg.name));
        }
        i := i + 1;
      }
      return Ok(None);
    }
  }
}
