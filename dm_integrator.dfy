/** The integrator of the current generation. On every port event it keeps
    one fabric-side VMI per (network, compute host): deleted for the
    previous port when the port's tracked fields change, created when the
    port is eligible, sits on a VLAN network with a valid tag and no VMI of
    that name exists yet, and deleted only when no eligible port is left on
    the pair. */
module DmIntegration {
  import opened Base
  import opened Fabric
  import opened TopologyDocument
  import opened DmTopologySource
  import opened DmBindings
  import DmTopologyLoader

  /** The fields whose change moves a port and that eligibility needs. */
  const REQUIRED_PORT_FIELDS: seq<string> := ["binding:host_id", "device_id", "device_owner", "network_id"]

  /** neutron_lib's DEVICE_OWNER_COMPUTE_PREFIX, TYPE_VLAN, MIN_VLAN_TAG and
      MAX_VLAN_TAG. */
  const DEVICE_OWNER_COMPUTE_PREFIX := "compute:"
  const TYPE_VLAN := "vlan"
  const MIN_VLAN_TAG := 1
  const MAX_VLAN_TAG := 4094

  /** A VLAN identifier section 9.6 of IEEE 802.1Q allows on a frame: a
      12-bit value other than the reserved 0 and 4095. */
  predicate ValidVid(v: int)
  {
    0 <= v < 4096 && v != 0 && v != 4095
  }

  /** `_get_vlan_tag`: the segmentation id of a VLAN network in range. */
  function VlanTag(n: Network): (r: Option<int>)
    ensures r.Some? ==> MIN_VLAN_TAG <= r.value <= MAX_VLAN_TAG
  {
    if n.networkType == TYPE_VLAN && n.segmentationId.Some? && MIN_VLAN_TAG <= n.segmentationId.value <= MAX_VLAN_TAG
    then Some(n.segmentationId.value)
    else None
  }

  /** A network is tagged exactly when it is a VLAN network whose
      segmentation id is a valid IEEE 802.1Q VLAN identifier, and then with
      that id; no id, 0 and 4095 give no tag. */
  lemma VlanTagSpec(n: Network)
    ensures VlanTag(n).Some? <==> n.networkType == "vlan" && n.segmentationId.Some? && ValidVid(n.segmentationId.value)
    ensures VlanTag(n).Some? ==> VlanTag(n).value == n.segmentationId.value
    ensures n.segmentationId in {None, Some(0), Some(4095)} ==> VlanTag(n).None?
  {
  }

  /** `_make_vmi_name`: keyed by network and compute host. */
  function VmiName(networkId: string, hostId: string): string
  {
    "_vlan_tag_for_vn_" + networkId + "_compute_" + hostId
  }

  /** Network ids are UUIDs, which hold no underscore; for those the name
      identifies the (network, host) pair. */
  lemma VmiNameInjective(n1: string, h1: string, n2: string, h2: string)
    requires '_' !in n1 && '_' !in n2
    ensures VmiName(n1, h1) == VmiName(n2, h2) <==> n1 == n2 && h1 == h2
  {
    var p := "_vlan_tag_for_vn_";
    if VmiName(n1, h1) == VmiName(n2, h2) {
      var x1, x2 := n1 + "_compute_" + h1, n2 + "_compute_" + h2;
      assert VmiName(n1, h1) == p + x1 && VmiName(n2, h2) == p + x2;
      assert x1 == (p + x1)[|p|..] == (p + x2)[|p|..] == x2;
      SplitAtSeparator(n1, h1, n2, h2, "_compute_");
    }
  }

  /** `_check_data_was_changed`: some required field differs, a missing
      field counting as None. */
  predicate DataChanged(current: PortDict, previous: PortDict)
    ensures DataChanged(current, previous) ==> current != previous
  {
    exists i :: 0 <= i < |REQUIRED_PORT_FIELDS| && Get(current, REQUIRED_PORT_FIELDS[i]) != Get(previous, REQUIRED_PORT_FIELDS[i])
  }

  lemma DataChangedSpec(current: PortDict, previous: PortDict)
    ensures DataChanged(current, previous) <==>
      || Get(current, "binding:host_id") != Get(previous, "binding:host_id")
      || Get(current, "device_id") != Get(previous, "device_id")
      || Get(current, "device_owner") != Get(previous, "device_owner")
      || Get(current, "network_id") != Get(previous, "network_id")
  {
    var r := REQUIRED_PORT_FIELDS;
    assert r[0] == "binding:host_id" && r[1] == "device_id" && r[2] == "device_owner" && r[3] == "network_id";
  }

  /** `_check_contains_required_fields`. */
  predicate HasRequiredFields(port: PortDict)
    ensures HasRequiredFields(port) <==> "binding:host_id" in port && "device_id" in port && "device_owner" in port && "network_id" in port
  {
    assert REQUIRED_PORT_FIELDS[0] == "binding:host_id" && REQUIRED_PORT_FIELDS[1] == "device_id";
    assert REQUIRED_PORT_FIELDS[2] == "device_owner" && REQUIRED_PORT_FIELDS[3] == "network_id";
    forall i :: 0 <= i < |REQUIRED_PORT_FIELDS| ==> REQUIRED_PORT_FIELDS[i] in port
  }

  /** `_check_should_be_tagged`: all required fields, a managed host, a
      device and a compute owner. */
  predicate ShouldBeTagged(topo: Option<Topology>, f: FabricState, port: PortDict)
    ensures ShouldBeTagged(topo, f, port) ==> HasRequiredFields(port)
  {
    && HasRequiredFields(port)
    && Contains(topo, f, port["binding:host_id"])
    && port["device_id"] != ""
    && StartsWith(port["device_owner"], DEVICE_OWNER_COMPUTE_PREFIX)
  }

  lemma ShouldBeTaggedSpec(topo: Option<Topology>, f: FabricState, port: PortDict)
    ensures ShouldBeTagged(topo, f, port) <==>
      && "binding:host_id" in port && "device_id" in port && "device_owner" in port && "network_id" in port
      && (if topo.Some? then ExactlyOne(topo.value.nodes, port["binding:host_id"]) else port["binding:host_id"] in f.nodes)
      && port["device_id"] != ""
      && |port["device_owner"]| >= 8 && port["device_owner"][..8] == "compute:"
  {
    if HasRequiredFields(port) && topo.Some? {
      FileModeLookup(topo.value, f, port["binding:host_id"]);
    }
  }

  /** Eligibility reads only the controller's nodes and ports. */
  lemma ShouldBeTaggedFrame(topo: Option<Topology>, f: FabricState, g: FabricState, port: PortDict)
    requires f.nodes == g.nodes && f.ports == g.ports
    ensures ShouldBeTagged(topo, f, port) == ShouldBeTagged(topo, g, port)
  {
    if HasRequiredFields(port) {
      LookupFrame(topo, f, g, port["binding:host_id"]);
    }
  }

  /** The fully qualified name of the pair's VMI: the project of the port's
      tenant followed by the VMI name. */
  function VmiFqName(f: FabricState, port: PortDict): (r: Result<FqName>)
    requires "network_id" in port && "binding:host_id" in port
    ensures r.Ok? <==> "tenant_id" in port && port["tenant_id"] in f.projects
    ensures r.Ok? ==> |r.value| >= 1 && r.value[|r.value| - 1] == VmiName(port["network_id"], port["binding:host_id"])
    ensures r.Ok? ==> |r.value| >= 1 && r.value[..|r.value| - 1] == f.projects[port["tenant_id"]]
    ensures r.Err? ==> r.error in {MissingKey, MissingObject}
  {
    if "tenant_id" !in port then Err(MissingKey)
    else if port["tenant_id"] !in f.projects then Err(MissingObject)
    else Ok(f.projects[port["tenant_id"]] + [VmiName(port["network_id"], port["binding:host_id"])])
  }

  /** Ports of one tenant on one (network, host) pair share one VMI. */
  lemma SharedVmi(f: FabricState, p: PortDict, q: PortDict)
    requires "network_id" in p && "binding:host_id" in p && "network_id" in q && "binding:host_id" in q
    requires p["network_id"] == q["network_id"] && p["binding:host_id"] == q["binding:host_id"] && Get(p, "tenant_id") == Get(q, "tenant_id")
    ensures VmiFqName(f, p) == VmiFqName(f, q)
  {
  }

  /** With network ids free of underscores, two ports name the same VMI
      exactly when their tenants' projects and their (network, host) pairs
      are the same: ports of tenants with different projects never share a
      VMI. */
  lemma VmiFqNameInjective(f: FabricState, p: PortDict, q: PortDict)
    requires "network_id" in p && "binding:host_id" in p && "network_id" in q && "binding:host_id" in q
    requires '_' !in p["network_id"] && '_' !in q["network_id"]
    requires VmiFqName(f, p).Ok? && VmiFqName(f, q).Ok?
    ensures VmiFqName(f, p) == VmiFqName(f, q) <==>
      && f.projects[p["tenant_id"]] == f.projects[q["tenant_id"]]
      && p["network_id"] == q["network_id"] && p["binding:host_id"] == q["binding:host_id"]
  {
    var a, b := VmiFqName(f, p).value, VmiFqName(f, q).value;
    VmiNameInjective(p["network_id"], p["binding:host_id"], q["network_id"], q["binding:host_id"]);
    if a == b {
      assert a[..|a| - 1] == b[..|b| - 1] && a[|a| - 1] == b[|b| - 1];
    }
  }

  /** `any(...)` over the ports of the pair. */
  predicate AnyTagged(topo: Option<Topology>, f: FabricState, ports: seq<PortDict>)
  {
    exists k :: 0 <= k < |ports| && ShouldBeTagged(topo, f, ports[k])
  }

  /** `delete_vlan_tagging_for_port`. */
  function DeleteSpec(topo: Option<Topology>, f: FabricState, core: CorePlugin, port: PortDict): (r: Step)
  {
    if !HasRequiredFields(port) then Step(f, Done)
    else match VmiFqName(f, port)
      case Err(e) => Step(f, Failed(e))
      case Ok(fq) =>
        if fq in f.vmis && !AnyTagged(topo, f, PortsOn(core.ports, port["network_id"], port["binding:host_id"])) then
          var d := DetachSpec(f, fq, f.vmis[fq]);
          if d.outcome.Failed? then d else Step(d.state.(vmis := d.state.vmis - {fq}), Done)
        else Step(f, Done)
  }

  /** Deletion touches nothing for a port without the required fields; it
      removes at most the pair's VMI, and does so exactly when that VMI
      exists, no port the core plugin lists on the pair is eligible and the
      detach succeeds. With the name formed, an absent VMI or an eligible
      port on the pair is a normal return with nothing changed; it fails
      only on a missing tenant or project, or on a dangling VPG
      back-reference. */
  lemma DeleteSpecEffect(topo: Option<Topology>, f: FabricState, core: CorePlugin, port: PortDict)
    ensures !HasRequiredFields(port) ==> DeleteSpec(topo, f, core, port) == Step(f, Done)
    ensures DeleteSpec(topo, f, core, port).state.nodes == f.nodes && DeleteSpec(topo, f, core, port).state.ports == f.ports
    ensures DeleteSpec(topo, f, core, port).outcome.Failed? ==> DeleteSpec(topo, f, core, port).state == f
    ensures DeleteSpec(topo, f, core, port).state.vmis != f.vmis ==>
      && HasRequiredFields(port) && VmiFqName(f, port).Ok?
      && var fq := VmiFqName(f, port).value;
      && fq in f.vmis
      && !AnyTagged(topo, f, PortsOn(core.ports, port["network_id"], port["binding:host_id"]))
      && DeleteSpec(topo, f, core, port).state.vmis == f.vmis - {fq}
    ensures HasRequiredFields(port) && VmiFqName(f, port).Ok? && VmiFqName(f, port).value in f.vmis
      && !AnyTagged(topo, f, PortsOn(core.ports, port["network_id"], port["binding:host_id"]))
      && DetachSpec(f, VmiFqName(f, port).value, f.vmis[VmiFqName(f, port).value]).outcome == Done
      ==> VmiFqName(f, port).value !in DeleteSpec(topo, f, core, port).state.vmis
    ensures DeleteSpec(topo, f, core, port).state.(vmis := f.vmis, vpgs := f.vpgs) == f
    ensures DeleteSpec(topo, f, core, port).state.vmis != f.vmis ==>
      DeleteSpec(topo, f, core, port).state.vpgs == DetachSpec(f, VmiFqName(f, port).value, f.vmis[VmiFqName(f, port).value]).state.vpgs
    ensures DeleteSpec(topo, f, core, port).state.vmis == f.vmis ==> DeleteSpec(topo, f, core, port).state == f
    ensures HasRequiredFields(port) && VmiFqName(f, port).Ok? ==>
      var fq := VmiFqName(f, port).value;
      (fq !in f.vmis || AnyTagged(topo, f, PortsOn(core.ports, port["network_id"], port["binding:host_id"]))) ==>
      DeleteSpec(topo, f, core, port) == Step(f, Done)
    ensures HasRequiredFields(port) && VmiFqName(f, port).Ok? ==>
      var fq := VmiFqName(f, port).value;
      (fq in f.vmis && !AnyTagged(topo, f, PortsOn(core.ports, port["network_id"], port["binding:host_id"]))
        && (f.vmis[fq].vpgBackRefs == [] || f.vmis[fq].vpgBackRefs[0] in f.vpgs)) ==>
      DeleteSpec(topo, f, core, port) == Step(DetachSpec(f, fq, f.vmis[fq]).state.(vmis := f.vmis - {fq}), Done)
    ensures HasRequiredFields(port) && VmiFqName(f, port).Err? ==>
      DeleteSpec(topo, f, core, port) == Step(f, Failed(VmiFqName(f, port).error))
    ensures DeleteSpec(topo, f, core, port).outcome.Failed? ==> DeleteSpec(topo, f, core, port).outcome.error in {MissingKey, MissingObject}
  {
    if HasRequiredFields(port) && VmiFqName(f, port).Ok? && VmiFqName(f, port).value in f.vmis {
      DetachSpecEffect(f, VmiFqName(f, port).value, f.vmis[VmiFqName(f, port).value]);
    }
  }

  /** An eligible port left on the pair keeps its VMI alive, and the delete
      then returns normally once the name is formed, so a sync goes on to
      its create. */
  lemma EligiblePortKeepsVmi(topo: Option<Topology>, f: FabricState, core: CorePlugin, port: PortDict, k: nat)
    requires HasRequiredFields(port)
    requires k < |PortsOn(core.ports, port["network_id"], port["binding:host_id"])|
    requires ShouldBeTagged(topo, f, PortsOn(core.ports, port["network_id"], port["binding:host_id"])[k])
    ensures DeleteSpec(topo, f, core, port).state == f
    ensures VmiFqName(f, port).Ok? ==> DeleteSpec(topo, f, core, port) == Step(f, Done)
    ensures VmiFqName(f, port).Err? ==> DeleteSpec(topo, f, core, port) == Step(f, Failed(VmiFqName(f, port).error))
  {
  }

  /** The create half of `sync_vlan_tagging_for_port`. */
  function CreateSpec(topo: Option<Topology>, f: FabricState, core: CorePlugin, port: PortDict): (r: Step)
  {
    if !ShouldBeTagged(topo, f, port) then Step(f, Done)
    else
      var net := port["network_id"];
      if net !in core.networks then Step(f, Failed(NetworkNotFound))
      else match VlanTag(core.networks[net])
        case None => Step(f, Done)
        case Some(tag) =>
          match VmiFqName(f, port)
          case Err(e) => Step(f, Failed(e))
          case Ok(fq) =>
            if fq in f.vmis || net !in f.networks then Step(f, Done)
            else match BindingsForHost(topo, f, port["binding:host_id"])
              case Err(e) => Step(f, Failed(e))
              case Ok(b) => Step(f.(vmis := f.vmis[fq := Vmi(net, tag, b, [])]), Done)
  }

  /** Creation changes only the VMIs and at most adds one: the pair's VMI,
      when the port is eligible, its network is a tagged VLAN network the
      controller knows, no VMI of that name exists and the bindings can be
      made; the new VMI carries the network, the tag and those bindings. A
      failure changes nothing. Each skip (an ineligible port, no usable tag,
      an existing VMI, a virtual network the controller lacks) is a normal
      return; the failures are a network the core plugin lacks, a name that
      cannot be formed and bindings that cannot be made. */
  lemma CreateSpecEffect(topo: Option<Topology>, f: FabricState, core: CorePlugin, port: PortDict)
    ensures CreateSpec(topo, f, core, port).state.(vmis := f.vmis) == f
    ensures CreateSpec(topo, f, core, port).outcome.Failed? ==> CreateSpec(topo, f, core, port).state == f
    ensures CreateSpec(topo, f, core, port).state.vmis != f.vmis ==>
      && ShouldBeTagged(topo, f, port)
      && CreateSpec(topo, f, core, port).outcome == Done
      && var net := port["network_id"];
      && net in core.networks && VlanTag(core.networks[net]).Some? && net in f.networks
      && VmiFqName(f, port).Ok? && VmiFqName(f, port).value !in f.vmis
      && BindingsForHost(topo, f, port["binding:host_id"]).Ok?
      && CreateSpec(topo, f, core, port).state.vmis == f.vmis[VmiFqName(f, port).value :=
           Vmi(net, VlanTag(core.networks[net]).value, BindingsForHost(topo, f, port["binding:host_id"]).value, [])]
    ensures ShouldBeTagged(topo, f, port) ==>
      var net := port["network_id"];
      net in core.networks && VlanTag(core.networks[net]).Some? && VmiFqName(f, port).Ok? && VmiFqName(f, port).value !in f.vmis
        && net in f.networks && BindingsForHost(topo, f, port["binding:host_id"]).Ok? ==>
      CreateSpec(topo, f, core, port) == Step(f.(vmis := f.vmis[VmiFqName(f, port).value :=
        Vmi(net, VlanTag(core.networks[net]).value, BindingsForHost(topo, f, port["binding:host_id"]).value, [])]), Done)
    ensures !ShouldBeTagged(topo, f, port) ==> CreateSpec(topo, f, core, port) == Step(f, Done)
    ensures ShouldBeTagged(topo, f, port) ==>
      var net := port["network_id"];
      && (net !in core.networks ==> CreateSpec(topo, f, core, port) == Step(f, Failed(NetworkNotFound)))
      && (net in core.networks && VlanTag(core.networks[net]).None? ==> CreateSpec(topo, f, core, port) == Step(f, Done))
      && (net in core.networks && VlanTag(core.networks[net]).Some? && VmiFqName(f, port).Err? ==>
            CreateSpec(topo, f, core, port) == Step(f, Failed(VmiFqName(f, port).error)))
      && ((net in core.networks && VlanTag(core.networks[net]).Some? && VmiFqName(f, port).Ok?
            && (VmiFqName(f, port).value in f.vmis || net !in f.networks)) ==> CreateSpec(topo, f, core, port) == Step(f, Done))
      && ((net in core.networks && VlanTag(core.networks[net]).Some? && VmiFqName(f, port).Ok?
            && VmiFqName(f, port).value !in f.vmis && net in f.networks && BindingsForHost(topo, f, port["binding:host_id"]).Err?) ==>
            CreateSpec(topo, f, core, port) == Step(f, Failed(BindingsForHost(topo, f, port["binding:host_id"]).error)))
  {
  }

  /** Once the pair's VMI exists, no port of the pair creates anything; the
      create returns normally unless the core plugin lacks the network. */
  lemma ExistingVmiBlocksCreate(topo: Option<Topology>, f: FabricState, core: CorePlugin, port: PortDict)
    requires "network_id" in port && "binding:host_id" in port
    requires VmiFqName(f, port).Ok? && VmiFqName(f, port).value in f.vmis
    ensures CreateSpec(topo, f, core, port).state == f
    ensures port["network_id"] in core.networks ==> CreateSpec(topo, f, core, port) == Step(f, Done)
    ensures CreateSpec(topo, f, core, port).outcome.Failed? ==>
      port["network_id"] !in core.networks && CreateSpec(topo, f, core, port).outcome == Failed(NetworkNotFound)
  {
  }

  /** Creation is idempotent: run again on what it produced, it changes
      nothing. */
  lemma CreateIdempotent(topo: Option<Topology>, f: FabricState, core: CorePlugin, port: PortDict)
    requires CreateSpec(topo, f, core, port).outcome == Done
    ensures CreateSpec(topo, CreateSpec(topo, f, core, port).state, core, port) == Step(CreateSpec(topo, f, core, port).state, Done)
  {
    var s := CreateSpec(topo, f, core, port).state;
    CreateSpecEffect(topo, f, core, port);
    if s != f {
      ShouldBeTaggedFrame(topo, f, s, port);
      assert VmiFqName(s, port) == VmiFqName(f, port);
    }
  }

  /** `sync_vlan_tagging_for_port`: delete for the previous port if a
      tracked field changed, then create for the current one. */
  function SyncSpec(topo: Option<Topology>, f: FabricState, core: CorePlugin, port: PortDict, previous: PortDict): (r: Step)
  {
    if DataChanged(port, previous) then
      var d := DeleteSpec(topo, f, core, previous);
      if d.outcome.Failed? then d else CreateSpec(topo, d.state, core, port)
    else CreateSpec(topo, f, core, port)
  }

  /** The two paths of a sync: with a tracked field changed, the delete for
      the previous port runs first, before any check of the current port,
      and a failure there ends the sync with that failure and no change;
      otherwise the sync is the create alone. */
  lemma SyncSpecSteps(topo: Option<Topology>, f: FabricState, core: CorePlugin, port: PortDict, previous: PortDict)
    ensures DataChanged(port, previous) ==>
      var d := DeleteSpec(topo, f, core, previous);
      && (d.outcome.Failed? ==> SyncSpec(topo, f, core, port, previous) == Step(f, d.outcome))
      && (d.outcome == Done ==> SyncSpec(topo, f, core, port, previous) == CreateSpec(topo, d.state, core, port))
    ensures !DataChanged(port, previous) ==> SyncSpec(topo, f, core, port, previous) == CreateSpec(topo, f, core, port)
  {
    DeleteSpecEffect(topo, f, core, previous);
  }

  /** When the tracked fields changed and the previous pair's VMI can go
      (it exists, no port left on that pair is eligible and the detach
      succeeds), it is gone after the sync, unless the current port is
      eligible and names that very VMI, which the create then makes anew. */
  lemma SyncRemovesPreviousVmi(topo: Option<Topology>, f: FabricState, core: CorePlugin, port: PortDict, previous: PortDict)
    requires DataChanged(port, previous) && HasRequiredFields(previous)
    requires VmiFqName(f, previous).Ok? && VmiFqName(f, previous).value in f.vmis
    requires !AnyTagged(topo, f, PortsOn(core.ports, previous["network_id"], previous["binding:host_id"]))
    requires DetachSpec(f, VmiFqName(f, previous).value, f.vmis[VmiFqName(f, previous).value]).outcome == Done
    ensures VmiFqName(f, previous).value in SyncSpec(topo, f, core, port, previous).state.vmis ==>
      ShouldBeTagged(topo, f, port) && VmiFqName(f, port) == VmiFqName(f, previous)
  {
    var d := DeleteSpec(topo, f, core, previous);
    DeleteSpecEffect(topo, f, core, previous);
    CreateSpecEffect(topo, d.state, core, port);
    ShouldBeTaggedFrame(topo, f, d.state, port);
    if ShouldBeTagged(topo, f, port) {
      assert VmiFqName(d.state, port) == VmiFqName(f, port);
    }
  }

  /** An update that leaves the tracked fields as they were deletes nothing
      and touches no VPG. */
  lemma SyncUnchangedNeverDeletes(topo: Option<Topology>, f: FabricState, core: CorePlugin, port: PortDict, previous: PortDict)
    requires !DataChanged(port, previous)
    ensures SyncSpec(topo, f, core, port, previous).state.vpgs == f.vpgs
    ensures forall fq :: fq in f.vmis ==>
      fq in SyncSpec(topo, f, core, port, previous).state.vmis && SyncSpec(topo, f, core, port, previous).state.vmis[fq] == f.vmis[fq]
  {
    CreateSpecEffect(topo, f, core, port);
  }

  /** A port on a network without a usable tag, or whose virtual network
      the controller lacks, never changes the controller when its tracked
      fields are unchanged; the sync returns normally unless the VMI name
      cannot be formed. */
  lemma UntaggedOrMissingNetworkNoChange(topo: Option<Topology>, f: FabricState, core: CorePlugin, port: PortDict, previous: PortDict)
    requires !DataChanged(port, previous) && "network_id" in port && port["network_id"] in core.networks
    requires VlanTag(core.networks[port["network_id"]]).None? || port["network_id"] !in f.networks
    ensures SyncSpec(topo, f, core, port, previous).state == f
    ensures VlanTag(core.networks[port["network_id"]]).None? || ("binding:host_id" in port && VmiFqName(f, port).Ok?) ==>
      SyncSpec(topo, f, core, port, previous) == Step(f, Done)
    ensures SyncSpec(topo, f, core, port, previous).outcome.Failed? ==>
      && "binding:host_id" in port && VmiFqName(f, port).Err?
      && SyncSpec(topo, f, core, port, previous).outcome == Failed(VmiFqName(f, port).error)
  {
  }

  /** Syncing the same port again after a sync that succeeded changes
      nothing. */
  lemma SyncIdempotent(topo: Option<Topology>, f: FabricState, core: CorePlugin, port: PortDict, previous: PortDict)
    requires SyncSpec(topo, f, core, port, previous).outcome == Done
    ensures SyncSpec(topo, SyncSpec(topo, f, core, port, previous).state, core, port, port) == Step(SyncSpec(topo, f, core, port, previous).state, Done)
  {
    DataChangedSpec(port, port);
    if DataChanged(port, previous) {
      var d := DeleteSpec(topo, f, core, previous);
      CreateIdempotent(topo, d.state, core, port);
    } else {
      CreateIdempotent(topo, f, core, port);
    }
  }

  /** The integrator: the controller client and the bindings helper that
      holds the topology. */
  class DeviceManagerIntegrator {
    const tf: Controller
    const helper: DmBindingsHelper

    constructor (tf: Controller)
      ensures this.tf == tf && Valid() && fresh(helper) && fresh(helper.topology) && helper.topology.topology.None?
    {
      this.tf := tf;
      helper := new DmBindingsHelper(tf);
    }

    predicate Valid()
    {
      helper.tf == tf && helper.topology.tf == tf
    }

    /** The topology the helper's source holds. */
    function Topo(): Option<Topology>
      reads helper.topology
    {
      helper.topology.topology
    }

    /** `initialize`: loads the topology only when the integration is
      enabled. */
    method Initialize(enabled: bool, path: string, doc: Json) returns (o: Outcome)
      modifies helper.topology
      ensures !enabled ==> Topo() == old(Topo()) && o == Done
      ensures enabled && DmTopologyLoader.Load(path, doc).Ok? ==> Topo() == Some(DmTopologyLoader.Load(path, doc).value) && o == Done
      ensures enabled && DmTopologyLoader.Load(path, doc).Err? ==> Topo() == old(Topo()) && o == Failed(DmTopologyLoader.Load(path, doc).error)
    {
      o := Done;
      if enabled {
        o := helper.Initialize(path, doc);
      }
    }

    /** `_check_data_was_changed`. */
    method CheckDataWasChanged(current: PortDict, previous: PortDict) returns (r: bool)
      ensures r == DataChanged(current, previous)
    {
      var i := 0;
      while i < |REQUIRED_PORT_FIELDS|
        invariant 0 <= i <= |REQUIRED_PORT_FIELDS|
        invariant forall k :: 0 <= k < i ==> Get(current, REQUIRED_PORT_FIELDS[k]) == Get(previous, REQUIRED_PORT_FIELDS[k])
      {
        var field := REQUIRED_PORT_FIELDS[i];
        if Get(current, field) != Get(previous, field) {
          return true;
        }
        i := i + 1;
      }
      return false;
    }

    /** `_check_contains_required_fields`. */
    method CheckContainsRequiredFields(port: PortDict) returns (r: bool)
      ensures r == HasRequiredFields(port)
    {
      var i := 0;
      while i < |REQUIRED_PORT_FIELDS|
        invariant 0 <= i <= |REQUIRED_PORT_FIELDS|
        invariant forall k :: 0 <= k < i ==> REQUIRED_PORT_FIELDS[k] in port
      {
        if REQUIRED_PORT_FIELDS[i] !in port {
          return false;
        }
        i := i + 1;
      }
      return true;
    }

    /** `_check_should_be_tagged`. */
    method CheckShouldBeTagged(port: PortDict) returns (r: bool)
      requires Valid()
      ensures r == ShouldBeTagged(Topo(), tf.State(), port)
    {
      var required := CheckContainsRequiredFields(port);
      if !required {
        return false;
      }
      var computeOwner := StartsWith(port["device_owner"], DEVICE_OWNER_COMPUTE_PREFIX);
      var managedHost := helper.CheckHostManaged(port["binding:host_id"]);
      if !managedHost || port["device_id"] == "" || !computeOwner {
        return false;
      }
      return true;
    }

    /** `_detach_vmi_from_vpg`. */
    method DetachVmiFromVpg(fq: FqName, vmi: Vmi) returns (o: Outcome)
      modifies tf
      ensures Step(tf.State(), o) == DetachSpec(old(tf.State()), fq, vmi)
    {
      if vmi.vpgBackRefs == [] {
        return Done;
      }
      var uuid := vmi.vpgBackRefs[0];
      if uuid !in tf.vpgs {
        return Failed(MissingObject);
      }
      var vpg := WithoutVmi(tf.vpgs[uuid], fq);
      tf.UpdateVpg(uuid, vpg);
      return Done;
    }

    /** `delete_vlan_tagging_for_port`. */
    method Delete(core: CorePlugin, port: PortDict) returns (o: Outcome)
      requires Valid()
      modifies tf
      ensures Step(tf.State(), o) == DeleteSpec(Topo(), old(tf.State()), core, port)
    {
      var f := tf.State();
      var required := CheckContainsRequiredFields(port);
      if !required {
        return Done;
      }
      if "tenant_id" !in port {
        return Failed(MissingKey);
      }
      if port["tenant_id"] !in tf.projects {
        return Failed(MissingObject);
      }
      var fq := tf.projects[port["tenant_id"]] + [VmiName(port["network_id"], port["binding:host_id"])];
      var existing := if fq in tf.vmis then Some(tf.vmis[fq]) else None;
      var vmiPorts := PortsOn(core.ports, port["network_id"], port["binding:host_id"]);
      var portsAssigned := false;
      var i := 0;
      while i < |vmiPorts| && !portsAssigned
        invariant 0 <= i <= |vmiPorts|
        invariant tf.State() == f
        invariant portsAssigned <==> exists k :: 0 <= k < i && ShouldBeTagged(Topo(), f, vmiPorts[k])
      {
        portsAssigned := CheckShouldBeTagged(vmiPorts[i]);
        i := i + 1;
      }
      assert portsAssigned <==> AnyTagged(Topo(), f, vmiPorts);
      if existing.Some? && !portsAssigned {
        o := DetachVmiFromVpg(fq, existing.value);
        if o.Failed? {
          return;
        }
        tf.DeleteVmi(fq);
      } else {
        o := Done;
      }
    }

    /** `sync_vlan_tagging_for_port`. */
    method Sync(core: CorePlugin, port: PortDict, previous: PortDict) returns (o: Outcome)
      requires Valid()
      modifies tf
      ensures Step(tf.State(), o) == SyncSpec(Topo(), old(tf.State()), core, port, previous)
    {
      var changed := CheckDataWasChanged(port, previous);
      if changed {
        o := Delete(core, previous);
        if o.Failed? {
          return;
        }
      }
      var tagged := CheckShouldBeTagged(port);
      if !tagged {
        return Done;
      }
      var networkId := port["network_id"];
      if networkId !in core.networks {
        return Failed(NetworkNotFound);
      }
      var vlanTag := VlanTag(core.networks[networkId]);
      if vlanTag.None? {
        return Done;
      }
      if "tenant_id" !in port {
        return Failed(MissingKey);
      }
      if port["tenant_id"] !in tf.projects {
        return Failed(MissingObject);
      }
      var fq := tf.projects[port["tenant_id"]] + [VmiName(networkId, port["binding:host_id"])];
      if fq in tf.vmis {
        return Done;
      }
      if networkId !in tf.networks {
        return Done;
      }
      var bindings := helper.GetBindingsForHost(port["binding:host_id"]);
      if bindings.Err? {
        return Failed(bindings.error);
      }
      tf.CreateVmi(fq, Vmi(networkId, vlanTag.value, bindings.value, []));
      return Done;
    }
  }
}
