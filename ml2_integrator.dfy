/** The integrator of the earlier generation. It keeps one VMI per (device,
    network), binds it by the first port of the host's node, copies that
    port's switch id into the profile and reuses the first automatic VPG on
    the port's PI. Its topology is the empty mapping until an enabled
    integration loads a document. */
module Ml2Integration {
  import opened Base
  import opened Fabric
  import opened TopologyDocument
  import Ml2TopologyLoader
  import DmIntegration
  import DmBindings

  /** `_get_node_for_port`. The topology is None while it is the empty
      mapping, whose missing `nodes` is a KeyError. */
  function NodeForPort(topo: Option<Topology>, port: PortDict): (r: Result<Option<Node>>)
  {
    if "binding:host_id" !in port then Ok(None)
    else if topo.None? then Err(MissingKey)
    else Ok(UniqueNode(topo.value, Some(port["binding:host_id"])))
  }

  /** A port without a host has no node, loaded or not; a port with a host
      and no loaded topology is a KeyError; otherwise the node is the one
      node carrying the host's name, and there is none when no node or
      several carry it. */
  lemma NodeForPortSpec(topo: Option<Topology>, port: PortDict)
    ensures "binding:host_id" !in port ==> NodeForPort(topo, port) == Ok(None)
    ensures "binding:host_id" in port && topo.None? ==> NodeForPort(topo, port) == Err(MissingKey)
    ensures "binding:host_id" in port && topo.Some? ==>
      && NodeForPort(topo, port).Ok?
      && (NodeForPort(topo, port).value.Some? <==> ExactlyOne(topo.value.nodes, port["binding:host_id"]))
      && forall k :: 0 <= k < |topo.value.nodes| && topo.value.nodes[k].name == port["binding:host_id"] && NodeForPort(topo, port).value.Some? ==>
           NodeForPort(topo, port).value == Some(topo.value.nodes[k])
  {
    if "binding:host_id" in port && topo.Some? {
      UniqueNodeSpec(topo.value, Some(port["binding:host_id"]));
    }
  }

  /** `_get_vlan_tag`: 0 < tag < 4095 on a VLAN network. */
  function VlanTag(n: Network): (r: Option<int>)
    ensures r.Some? ==> 0 < r.value < 4095
  {
    if n.networkType == "vlan" && n.segmentationId.Some? && 0 < n.segmentationId.value < 4095
    then Some(n.segmentationId.value)
    else None
  }

  /** The exclusive range of this generation and the inclusive 1..4094 of
      the current one accept the same tags. */
  lemma VlanTagsAgree(n: Network)
    ensures VlanTag(n) == DmIntegration.VlanTag(n)
  {
  }

  /** `_make_vmi_name`: keyed by device and network. */
  function VmiName(deviceId: string, networkId: string): string
  {
    "_vlan_tag_for_vm_" + deviceId + "_vn_" + networkId
  }

  /** Device ids are UUIDs, which hold no underscore; for those the name
      identifies the (device, network) pair. */
  lemma VmiNameInjective(d1: string, n1: string, d2: string, n2: string)
    requires '_' !in d1 && '_' !in d2
    ensures VmiName(d1, n1) == VmiName(d2, n2) <==> d1 == d2 && n1 == n2
  {
    var p := "_vlan_tag_for_vm_";
    if VmiName(d1, n1) == VmiName(d2, n2) {
      var x1, x2 := d1 + "_vn_" + n1, d2 + "_vn_" + n2;
      assert VmiName(d1, n1) == p + x1 && VmiName(d2, n2) == p + x2;
      assert x1 == (p + x1)[|p|..] == (p + x2)[|p|..] == x2;
      SplitAtSeparator(d1, n1, d2, n2, "_vn_");
    }
  }

  /** The two generations' VMI names never coincide: their fixed prefixes
      differ in the sixteenth character (`m` against `n`). */
  lemma NamesOfGenerationsDiffer(deviceId: string, networkId: string, otherNetwork: string, hostId: string)
    ensures VmiName(deviceId, networkId) != DmIntegration.VmiName(otherNetwork, hostId)
  {
    var a, b := "_vlan_tag_for_vm_", "_vlan_tag_for_vn_";
    assert VmiName(deviceId, networkId) == a + (deviceId + "_vn_" + networkId);
    assert DmIntegration.VmiName(otherNetwork, hostId) == b + (otherNetwork + "_compute_" + hostId);
    assert (a + (deviceId + "_vn_" + networkId))[..17] == a != b == (b + (otherNetwork + "_compute_" + hostId))[..17];
  }

  /** `_get_bindings`: the first port of the node alone. */
  function Bindings(f: FabricState, node: Node): (r: Result<seq<KeyValue>>)
  {
    if node.ports == [] then Err(EmptyPortList)
    else
      var p := node.ports[0];
      match FabricName(f, p.switchName)
      case None => Err(FabricNotFound)
      case Some(fabric) =>
        if p.switchId.None? then Err(MissingKey)
        else
          var profile := Profile([LocalLink(p.portName, p.switchId, p.switchName, fabric)]);
          match AutoVpgOnPi(f, PiName(p.switchName, p.portName))
          case Err(e) => Err(e)
          case Ok(vpg) =>
            if vpg.Some? && vpg.value != "" then Ok([profile, VnicType(BAREMETAL), VpgBinding(vpg.value)])
            else Ok([profile, VnicType(BAREMETAL)])
  }

  /** The bindings name the first port only, with its switch id, and carry
      the first automatic VPG on its PI when there is one with a name. */
  lemma BindingsSpec(f: FabricState, node: Node)
    ensures node.ports == [] ==> Bindings(f, node) == Err(EmptyPortList)
    ensures node.ports != [] && FabricName(f, node.ports[0].switchName).None? ==> Bindings(f, node) == Err(FabricNotFound)
    ensures Bindings(f, node).Ok? ==>
      var b := Bindings(f, node).value;
      var p := node.ports[0];
      var vpg := AutoVpgOnPi(f, PiName(p.switchName, p.portName));
      && node.ports != [] && p.switchId.Some?
      && 2 <= |b| <= 3
      && b[0] == Profile([LocalLink(p.portName, p.switchId, p.switchName, f.fabrics[p.switchName])])
      && b[1] == VnicType(BAREMETAL)
      && (|b| == 3 <==> vpg.Ok? && vpg.value.Some? && vpg.value.value != "")
      && (|b| == 3 ==> b[2] == VpgBinding(vpg.value.value))
    ensures node.ports != [] && FabricName(f, node.ports[0].switchName).Some? && node.ports[0].switchId.None? ==>
      Bindings(f, node) == Err(MissingKey)
    ensures (node.ports != [] && FabricName(f, node.ports[0].switchName).Some? && node.ports[0].switchId.Some?
      && AutoVpgOnPi(f, PiName(node.ports[0].switchName, node.ports[0].portName)).Ok?) ==> Bindings(f, node).Ok?
    ensures Bindings(f, node).Err? ==> Bindings(f, node).error in {EmptyPortList, FabricNotFound, MissingKey, MissingObject}
  {
    if node.ports != [] {
      var p := node.ports[0];
      var pi := PiName(p.switchName, p.portName);
      if pi in f.pis { FirstAutoVpgError(f, f.pis[pi].vpgBackRefs); }
    }
  }

  /** The fully qualified name of the pair's VMI under the tenant's
      project. */
  function VmiFqName(f: FabricState, port: PortDict): (r: Result<FqName>)
    requires "device_id" in port && "network_id" in port
    ensures r.Ok? <==> "tenant_id" in port && port["tenant_id"] in f.projects
    ensures r.Ok? ==> |r.value| >= 1 && r.value[|r.value| - 1] == VmiName(port["device_id"], port["network_id"])
    ensures r.Ok? ==> |r.value| >= 1 && r.value[..|r.value| - 1] == f.projects[port["tenant_id"]]
    ensures r.Err? ==> r.error in {MissingKey, MissingObject}
  {
    if "tenant_id" !in port then Err(MissingKey)
    else if port["tenant_id"] !in f.projects then Err(MissingObject)
    else Ok(f.projects[port["tenant_id"]] + [VmiName(port["device_id"], port["network_id"])])
  }

  /** With device ids free of underscores, two ports name the same VMI
      exactly when their tenants' projects and their (device, network)
      pairs are the same. */
  lemma VmiFqNameInjective(f: FabricState, p: PortDict, q: PortDict)
    requires "device_id" in p && "network_id" in p && "device_id" in q && "network_id" in q
    requires '_' !in p["device_id"] && '_' !in q["device_id"]
    requires VmiFqName(f, p).Ok? && VmiFqName(f, q).Ok?
    ensures VmiFqName(f, p) == VmiFqName(f, q) <==>
      && f.projects[p["tenant_id"]] == f.projects[q["tenant_id"]]
      && p["device_id"] == q["device_id"] && p["network_id"] == q["network_id"]
  {
    var a, b := VmiFqName(f, p).value, VmiFqName(f, q).value;
    VmiNameInjective(p["device_id"], p["network_id"], q["device_id"], q["network_id"]);
    if a == b {
      assert a[..|a| - 1] == b[..|b| - 1] && a[|a| - 1] == b[|b| - 1];
    }
  }

  /** `create_vlan_tagging_for_port`, on the port dictionary itself. */
  function CreateSpec(topo: Option<Topology>, f: FabricState, core: CorePlugin, port: PortDict): (r: Step)
  {
    match NodeForPort(topo, port)
    case Err(e) => Step(f, Failed(e))
    case Ok(node) =>
      if node.None? || GetOr(port, "device_id", "") == "" then Step(f, Done)
      else if "network_id" !in port then Step(f, Failed(MissingKey))
      else
        var net := port["network_id"];
        if net !in core.networks then Step(f, Failed(NetworkNotFound))
        else match VlanTag(core.networks[net])
          case None => Step(f, Done)
          case Some(tag) =>
            match VmiFqName(f, port)
            case Err(e) => Step(f, Failed(e))
            case Ok(fq) =>
              if fq in f.vmis || net !in f.networks then Step(f, Done)
              else match Bindings(f, node.value)
                case Err(e) => Step(f, Failed(e))
                case Ok(b) => Step(f.(vmis := f.vmis[fq := Vmi(net, tag, b, [])]), Done)
  }

  /** Without a node or a device id the create returns before the core
      plugin or the controller is consulted: whatever they hold, nothing
      changes. */
  lemma CreateSkipped(topo: Option<Topology>, port: PortDict)
    requires NodeForPort(topo, port).Ok?
    requires NodeForPort(topo, port).value.None? || GetOr(port, "device_id", "") == ""
    ensures forall core, g :: CreateSpec(topo, g, core, port) == Step(g, Done)
  {
  }

  /** Creation changes only the VMIs and at most adds the (device, network)
      VMI, when the host has a unique node, the port has a device, the
      network is a tagged VLAN network the controller knows and no VMI of
      that name exists; the new VMI carries the first-port bindings. A skip
      (no usable tag, an existing VMI, a virtual network the controller
      lacks) is a normal return; the failures are a topology without
      `nodes`, a missing network id, a network the core plugin lacks, a
      name that cannot be formed and bindings that cannot be made. */
  lemma CreateSpecEffect(topo: Option<Topology>, f: FabricState, core: CorePlugin, port: PortDict)
    ensures CreateSpec(topo, f, core, port).state.(vmis := f.vmis) == f
    ensures CreateSpec(topo, f, core, port).outcome.Failed? ==> CreateSpec(topo, f, core, port).state == f
    ensures CreateSpec(topo, f, core, port).state.vmis != f.vmis ==>
      && NodeForPort(topo, port).Ok? && NodeForPort(topo, port).value.Some?
      && "device_id" in port && port["device_id"] != "" && "network_id" in port
      && CreateSpec(topo, f, core, port).outcome == Done
      && var net := port["network_id"];
      && net in core.networks && VlanTag(core.networks[net]).Some? && net in f.networks
      && VmiFqName(f, port).Ok? && VmiFqName(f, port).value !in f.vmis
      && Bindings(f, NodeForPort(topo, port).value.value).Ok?
      && CreateSpec(topo, f, core, port).state.vmis == f.vmis[VmiFqName(f, port).value :=
           Vmi(net, VlanTag(core.networks[net]).value, Bindings(f, NodeForPort(topo, port).value.value).value, [])]
    ensures NodeForPort(topo, port).Ok? && NodeForPort(topo, port).value.Some? && GetOr(port, "device_id", "") != "" && "network_id" in port ==>
      var net := port["network_id"];
      var n := NodeForPort(topo, port).value.value;
      net in core.networks && VlanTag(core.networks[net]).Some? && VmiFqName(f, port).Ok? && VmiFqName(f, port).value !in f.vmis
        && net in f.networks && Bindings(f, n).Ok? ==>
      CreateSpec(topo, f, core, port) == Step(f.(vmis := f.vmis[VmiFqName(f, port).value :=
        Vmi(net, VlanTag(core.networks[net]).value, Bindings(f, n).value, [])]), Done)
    ensures NodeForPort(topo, port).Err? ==> CreateSpec(topo, f, core, port) == Step(f, Failed(NodeForPort(topo, port).error))
    ensures "binding:host_id" in port && topo.None? ==> CreateSpec(topo, f, core, port) == Step(f, Failed(MissingKey))
    ensures NodeForPort(topo, port).Ok? && NodeForPort(topo, port).value.Some? && GetOr(port, "device_id", "") != "" ==>
      && ("network_id" !in port ==> CreateSpec(topo, f, core, port) == Step(f, Failed(MissingKey)))
      && ("network_id" in port ==>
        var net := port["network_id"];
        var n := NodeForPort(topo, port).value.value;
        && (net !in core.networks ==> CreateSpec(topo, f, core, port) == Step(f, Failed(NetworkNotFound)))
        && (net in core.networks && VlanTag(core.networks[net]).None? ==> CreateSpec(topo, f, core, port) == Step(f, Done))
        && (net in core.networks && VlanTag(core.networks[net]).Some? && VmiFqName(f, port).Err? ==>
              CreateSpec(topo, f, core, port) == Step(f, Failed(VmiFqName(f, port).error)))
        && ((net in core.networks && VlanTag(core.networks[net]).Some? && VmiFqName(f, port).Ok?
              && (VmiFqName(f, port).value in f.vmis || net !in f.networks)) ==> CreateSpec(topo, f, core, port) == Step(f, Done))
        && ((net in core.networks && VlanTag(core.networks[net]).Some? && VmiFqName(f, port).Ok?
              && VmiFqName(f, port).value !in f.vmis && net in f.networks && Bindings(f, n).Err?) ==>
              CreateSpec(topo, f, core, port) == Step(f, Failed(Bindings(f, n).error))))
  {
  }

  /** Creation is idempotent. */
  lemma CreateIdempotent(topo: Option<Topology>, f: FabricState, core: CorePlugin, port: PortDict)
    requires CreateSpec(topo, f, core, port).outcome == Done
    ensures CreateSpec(topo, CreateSpec(topo, f, core, port).state, core, port) == Step(CreateSpec(topo, f, core, port).state, Done)
  {
    CreateSpecEffect(topo, f, core, port);
  }

  /** `delete_vlan_tagging_for_port`. */
  function DeleteSpec(topo: Option<Topology>, f: FabricState, port: PortDict): (r: Step)
  {
    match NodeForPort(topo, port)
    case Err(e) => Step(f, Failed(e))
    case Ok(node) =>
      if node.None? || GetOr(port, "device_id", "") == "" then Step(f, Done)
      else if "network_id" !in port then Step(f, Failed(MissingKey))
      else match VmiFqName(f, port)
        case Err(e) => Step(f, Failed(e))
        case Ok(fq) =>
          if fq !in f.vmis then Step(f, Done)
          else
            var d := DetachSpec(f, fq, f.vmis[fq]);
            if d.outcome.Failed? then d else Step(d.state.(vmis := d.state.vmis - {fq}), Done)
  }

  /** Deletion does nothing without a node and a device id, or when the
      pair has no VMI, and returns normally; otherwise it detaches the VMI
      from its first VPG and removes it and nothing else. It fails only on a
      missing key, a missing project or a dangling VPG back-reference. */
  lemma DeleteSpecEffect(topo: Option<Topology>, f: FabricState, port: PortDict)
    ensures NodeForPort(topo, port).Ok? && (NodeForPort(topo, port).value.None? || GetOr(port, "device_id", "") == "") ==>
      DeleteSpec(topo, f, port) == Step(f, Done)
    ensures DeleteSpec(topo, f, port).outcome.Failed? ==> DeleteSpec(topo, f, port).state == f
    ensures "binding:host_id" in port && topo.None? ==> DeleteSpec(topo, f, port) == Step(f, Failed(MissingKey))
    ensures DeleteSpec(topo, f, port).state.vmis != f.vmis ==>
      && "device_id" in port && "network_id" in port && VmiFqName(f, port).Ok?
      && VmiFqName(f, port).value in f.vmis
      && DeleteSpec(topo, f, port).state == DetachSpec(f, VmiFqName(f, port).value, f.vmis[VmiFqName(f, port).value]).state.(vmis := f.vmis - {VmiFqName(f, port).value})
    ensures "device_id" in port && "network_id" in port && VmiFqName(f, port).Ok? && VmiFqName(f, port).value !in f.vmis ==>
      DeleteSpec(topo, f, port).state == f
    ensures (NodeForPort(topo, port).Ok? && NodeForPort(topo, port).value.Some? && GetOr(port, "device_id", "") != ""
      && "network_id" in port && VmiFqName(f, port).Ok? && VmiFqName(f, port).value in f.vmis
      && DetachSpec(f, VmiFqName(f, port).value, f.vmis[VmiFqName(f, port).value]).outcome == Done) ==>
      DeleteSpec(topo, f, port) == Step(DetachSpec(f, VmiFqName(f, port).value, f.vmis[VmiFqName(f, port).value]).state.(vmis := f.vmis - {VmiFqName(f, port).value}), Done)
      && VmiFqName(f, port).value !in DeleteSpec(topo, f, port).state.vmis
    ensures NodeForPort(topo, port).Ok? && NodeForPort(topo, port).value.Some? && GetOr(port, "device_id", "") != "" && "network_id" in port ==>
      && (VmiFqName(f, port).Err? ==> DeleteSpec(topo, f, port) == Step(f, Failed(VmiFqName(f, port).error)))
      && (VmiFqName(f, port).Ok? ==>
        var fq := VmiFqName(f, port).value;
        && (fq !in f.vmis ==> DeleteSpec(topo, f, port) == Step(f, Done))
        && (fq in f.vmis && (f.vmis[fq].vpgBackRefs == [] || f.vmis[fq].vpgBackRefs[0] in f.vpgs) ==>
              DeleteSpec(topo, f, port) == Step(DetachSpec(f, fq, f.vmis[fq]).state.(vmis := f.vmis - {fq}), Done)))
    ensures DeleteSpec(topo, f, port).outcome.Failed? ==> DeleteSpec(topo, f, port).outcome.error in {MissingKey, MissingObject}
  {
    if NodeForPort(topo, port).Ok? && NodeForPort(topo, port).value.Some? && GetOr(port, "device_id", "") != ""
      && "network_id" in port && VmiFqName(f, port).Ok? && VmiFqName(f, port).value in f.vmis {
      DetachSpecEffect(f, VmiFqName(f, port).value, f.vmis[VmiFqName(f, port).value]);
    }
  }

  /** The two generations pick VPGs differently: here an automatic VPG over
      more PIs than the host's single link is reused, where the current
      generation's exact-set check passes it over. */
  lemma ReuseWithoutSetCheck()
    ensures
      var pi, other := PiName("leaf1", "xe-0/0/1"), PiName("leaf2", "xe-0/0/1");
      var f := FabricState(map[], map["v" := Vpg("vpg-1", false, [pi, other], [])], map[pi := PhysicalInterface(["v"])],
        map["leaf1" := "fab"], map[], map[], map[], {});
      var ports := [TopoPort(None, "leaf1", "xe-0/0/1", Some("52:54:00:29:b1:a6"))];
      && AutoVpgOnPi(f, pi) == Ok(Some("vpg-1"))
      && DmBindings.ExistingVpg(f, ports) == Ok(None)
  {
    var pi, other := PiName("leaf1", "xe-0/0/1"), PiName("leaf2", "xe-0/0/1");
    var f := FabricState(map[], map["v" := Vpg("vpg-1", false, [pi, other], [])], map[pi := PhysicalInterface(["v"])],
      map["leaf1" := "fab"], map[], map[], map[], {});
    var ports := [TopoPort(None, "leaf1", "xe-0/0/1", Some("52:54:00:29:b1:a6"))];
    var required, existing := set p | p in ports :: DmBindings.PortPi(p), set r | r in [pi, other];
    assert other in existing;
    assert other !in required;
    assert f.vpgs["v"].piRefs == [pi, other];
    assert !DmBindings.RefsCoverAllPorts([pi, other], ports);
    assert DmBindings.PortPi(ports[0]) == pi;
    assert f.pis[pi].vpgBackRefs == ["v"];
    assert ["v"][1..] == [];
    assert DmBindings.ReusableVpg(f, [], ports) == Ok(None);
    assert DmBindings.ReusableVpg(f, ["v"], ports) == Ok(None);
  }

  /** The integrator object. */
  class DeviceManagerIntegrator {
    const tf: Controller
    var topology: Option<Topology>

    constructor (tf: Controller)
      ensures this.tf == tf && topology.None?
    {
      this.tf := tf;
      topology := None;
    }

    /** `initialize`: the empty mapping, replaced by the loaded document
      when the integration is enabled; a failed load propagates and leaves
      the empty mapping. */
    method Initialize(enabled: bool, path: string, doc: Json) returns (o: Outcome)
      modifies this
      ensures !enabled ==> topology.None? && o == Done
      ensures enabled && Ml2TopologyLoader.Load(path, doc).Ok? ==> topology == Some(Ml2TopologyLoader.Load(path, doc).value) && o == Done
      ensures enabled && Ml2TopologyLoader.Load(path, doc).Err? ==> topology.None? && o == Failed(Ml2TopologyLoader.Load(path, doc).error)
    {
      topology := None;
      o := Done;
      if enabled {
        var r := Ml2TopologyLoader.Load(path, doc);
        if r.Ok? {
          topology := Some(r.value);
        } else {
          o := Failed(r.error);
        }
      }
    }

    /** `_find_existing_vpg(switch, port)`. */
    method FindExistingVpg(switchName: string, portName: string) returns (r: Result<Option<string>>)
      ensures r == AutoVpgOnPi(tf.State(), PiName(switchName, portName))
    {
      var f := tf.State();
      var pi := PiName(switchName, portName);
      if pi !in tf.pis {
        return Ok(None);
      }
      var refs := tf.pis[pi].vpgBackRefs;
      var i := 0;
      while i < |refs|
        invariant 0 <= i <= |refs|
        invariant FirstAutoVpg(f, refs[i..]) == FirstAutoVpg(f, refs)
      {
        assert refs[i..][1..] == refs[i + 1..];
        if refs[i] !in tf.vpgs {
          return Err(MissingObject);
        }
        if !tf.vpgs[refs[i]].userCreated {
          return Ok(Some(tf.vpgs[refs[i]].name));
        }
        i := i + 1;
      }
      return Ok(None);
    }

    /** `_get_bindings`. */
    method GetBindings(node: Node) returns (r: Result<seq<KeyValue>>)
      ensures r == Bindings(tf.State(), node)
    {
      if node.ports == [] {
        return Err(EmptyPortList);
      }
      var nodePort := node.ports[0];
      var fabric := FabricName(tf.State(), nodePort.switchName);
      if fabric.None? {
        return Err(FabricNotFound);
      }
      if nodePort.switchId.None? {
        return Err(MissingKey);
      }
      var bindings := [Profile([LocalLink(nodePort.portName, nodePort.switchId, nodePort.switchName, fabric.value)]), VnicType(BAREMETAL)];
      var vpg := FindExistingVpg(nodePort.switchName, nodePort.portName);
      if vpg.Err? {
        return Err(vpg.error);
      }
      if vpg.value.Some? && vpg.value.value != "" {
        bindings := bindings + [VpgBinding(vpg.value.value)];
        assert bindings == [bindings[0], VnicType(BAREMETAL), VpgBinding(vpg.value.value)];
      }
      return Ok(bindings);
    }

    /** `_detach_vmi_from_vpg`. */
    method DetachVmiFromVpg(fq: FqName, vmi: Vmi) returns (o: Outcome)
      modifies tf
      ensures Step(tf.State(), o) == DetachSpec(old(tf.State()), fq, vmi)
    {
      if vmi.vpgBackRefs == [] {
        return Done;
      }
      var uuid := vmi.vpgBackRefs[0];
      if uuid !in tf.vpgs {
        return Failed(MissingObject);
      }
      tf.UpdateVpg(uuid, WithoutVmi(tf.vpgs[uuid], fq));
      return Done;
    }

    /** `create_vlan_tagging_for_port`. */
    method Create(core: CorePlugin, port: PortDict) returns (o: Outcome)
      modifies tf
      ensures Step(tf.State(), o) == CreateSpec(topology, old(tf.State()), core, port)
    {
      var node := NodeForPort(topology, port);
      if node.Err? {
        return Failed(node.error);
      }
      var deviceId := GetOr(port, "device_id", "");
      if node.value.None? || deviceId == "" {
        return Done;
      }
      if "network_id" !in port {
        return Failed(MissingKey);
      }
      var networkId := port["network_id"];
      if networkId !in core.networks {
        return Failed(NetworkNotFound);
      }
      var vlanTag := VlanTag(core.networks[networkId]);
      if vlanTag.None? {
        return Done;
      }
      if "tenant_id" !in port {
        return Failed(MissingKey);
      }
      if port["tenant_id"] !in tf.projects {
        return Failed(MissingObject);
      }
      var fq := tf.projects[port["tenant_id"]] + [VmiName(deviceId, networkId)];
      if fq in tf.vmis || networkId !in tf.networks {
        return Done;
      }
      var bindings := GetBindings(node.value.value);
      if bindings.Err? {
        return Failed(bindings.error);
      }
      tf.CreateVmi(fq, Vmi(networkId, vlanTag.value, bindings.value, []));
      return Done;
    }

    /** `delete_vlan_tagging_for_port`. */
    method Delete(port: PortDict) returns (o: Outcome)
      modifies tf
      ensures Step(tf.State(), o) == DeleteSpec(topology, old(tf.State()), port)
    {
      var node := NodeForPort(topology, port);
      if node.Err? {
        return Failed(node.error);
      }
      var deviceId := GetOr(port, "device_id", "");
      if node.value.None? || deviceId == "" {
        return Done;
      }
      if "tenant_id" !in port || "network_id" !in port {
        return Failed(MissingKey);
      }
      if port["tenant_id"] !in tf.projects {
        return Failed(MissingObject);
      }
      var fq := tf.projects[port["tenant_id"]] + [VmiName(deviceId, port["network_id"])];
      if fq in tf.vmis {
        o := DetachVmiFromVpg(fq, tf.vmis[fq]);
        if o.Failed? {
          return;
        }
        tf.DeleteVmi(fq);
      } else {
        o := Done;
      }
    }
  }
}
