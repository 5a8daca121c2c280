# Device Manager integration of networking-opencontrail, modelled in Dafny

The Neutron plugin of Tungsten Fabric lets the fabric's Device Manager configure
the physical switches for virtual machines. To do this it keeps, for each port
event, a fabric-side virtual machine interface (VMI). The VMI carries the
port's VLAN tag and bindings: one `local_link_information` entry per physical
link of the compute host, the `baremetal` VNIC type, and optionally a virtual
port group (VPG) to reuse. The hosts and their links come from a declarative
topology document (YAML) or, in the current generation, from the controller's
own Node/Port/PhysicalInterface objects.

The project models both generations of this core:

- the current `dm` package:
  - the integrator, with sync (delete for the previous port, then create) and delete;
  - the bindings helper, which builds a profile over every link and picks a
    VPG whose PIs are exactly the host's;
  - the two-mode topology source;
  - the topology loader, which checks the schema and rejects duplicate node names;
  - the file-only node helper;
- the earlier `ml2` package:
  - the create/delete integrator, which binds by the first port only, copies
    the switch id and reuses the first automatic VPG;
  - its loader, which requires `switch_id` and allows duplicate names.

Layout:

- `base.dfy`: optional values, the exceptions, port dictionaries and the core plugin.
- `fabric.dfy`: the controller client.
  - It is the class `Fabric.Controller`, whose map fields hold VMIs, VPGs,
    PIs, switch fabrics, nodes, ports, projects and networks.
  - `State()` takes a value snapshot of those fields.
  - Its three mutators are the only way controller state changes.
- `topology_document.dfy`: the parsed document as a `Json` value, the schema
  as a predicate, decoding to a typed `Topology`, and the unique-name node
  lookup that every file-backed variant shares.
- One file per source file after that.

Each state-changing operation is a `method` on the source's object. Its
`ensures` ties the new controller state and its outcome to a specification
function over values (`CreateSpec`, `DeleteSpec`, `SyncSpec`, `DetachSpec`).
Lemmas then state what those functions promise: what changes, when, and
idempotence. A read-only method ensures its result equals a specification
function, and the properties are proved about that function.

Python exceptions become `Err`/`Failed` values. The core raises its own
exceptions, such as ConfigInvalidFormat, NodeNotFound, FabricNotFound and
PhysicalInterfaceNotFound. It also lets three uncaught ones escape:
- an attribute read on a `None` the client returned becomes `MissingObject`;
- a missing dictionary key becomes `MissingKey`;
- `ports[0]` of an empty list becomes `EmptyPortList`.

Where the code and the unit tests disagree, the model follows the code:
- `dm` loader: with no topology path configured, `load` raises
  NoTopologyFileError. The unit test expects `None`.
- `dm` topology source: in API mode, every failure to read a node, an unknown
  host included, is InvalidNodeError, because the `except` clause converts the
  AttributeError. The unit tests expect NodeNotFoundError for some of these cases.
- The bindings helper imports `DmTopologyFile` and `DmTopologyApi`, which
  `dm/dm_topology.py` does not define. The model uses the one `DmTopology`
  class that file does define. That class is in file mode when a document is
  loaded and in API mode otherwise.

## Model

| member | source | states |
|---|---|---|
| Base.PortsOn | networking_opencontrail/dm/dm_integrator.py:104-107 | the ports listed for a (network, host) filter are exactly the plugin's ports with that network id and that host id |
| Fabric.FabricName | networking_opencontrail/dm/dm_bindings_helper.py:54-60 | a switch has a fabric exactly when the controller has a non-empty fabric name for it, and then it is that name |
| Fabric.RemoveRef | networking_opencontrail/dm/dm_integrator.py:147 | definition of `del_virtual_machine_interface` on a reference list; RemoveRefSpec states its effect |
| Fabric.RemoveRefSpec | networking_opencontrail/dm/dm_integrator.py:147 | removing a VMI from a reference list removes every reference to it and keeps every other reference |
| Fabric.WithoutVmi | networking_opencontrail/dm/dm_integrator.py:147 | the VPG no longer references the VMI, keeps every other VMI reference, and keeps its name, user-created flag and PI references |
| Fabric.DetachSpec | networking_opencontrail/dm/dm_integrator.py:142-148 | definition of `_detach_vmi_from_vpg` over controller states; DetachSpecEffect states its effect |
| Fabric.FirstAutoVpgSpec | networking_opencontrail/dm/dm_node_helper.py:78-87 | the VPG found is the first back-referenced VPG that no operator created, every earlier one being user-created; none is found exactly when all are user-created |
| Fabric.FirstAutoVpg | networking_opencontrail/dm/dm_node_helper.py:82-86 | definition of the loop over back-references that returns the first VPG no operator created; its properties are stated by FirstAutoVpgSpec, FirstAutoVpgFound and FirstAutoVpgError |
| Fabric.FirstAutoVpgFound | networking_opencontrail/dm/dm_node_helper.py:82-86 | a VPG no operator created, preceded only by present user-created VPGs, is the one found |
| Fabric.FirstAutoVpgError | networking_opencontrail/dm/dm_node_helper.py:82-86 | the search fails only with MissingObject, on a back-reference to an absent VPG that follows only present user-created VPGs |
| Fabric.AutoVpgOnPi | networking_opencontrail/dm/dm_node_helper.py:78-87 | definition of `_find_existing_vpg(switch, port)`: no VPG for a missing PI, the first automatic VPG otherwise |
| Fabric.DetachSpecEffect | networking_opencontrail/dm/dm_integrator.py:142-148 | the detach returns normally exactly when the VMI has no VPG back-reference or its first back-referenced VPG exists, and otherwise fails with MissingObject and changes nothing; only VPGs change; without back-references nothing changes; otherwise only the first back-referenced VPG changes, and it loses exactly its references to the VMI |
| Fabric.Controller.CreateVmi | networking_opencontrail/dm/dm_integrator.py:88 | the VMI is stored under its fully qualified name and nothing else changes |
| Fabric.Controller.DeleteVmi | networking_opencontrail/dm/dm_integrator.py:112-113 | the VMI of that name is gone and nothing else changes |
| Fabric.Controller.UpdateVpg | networking_opencontrail/dm/dm_integrator.py:148 | the VPG is replaced under its uuid and nothing else changes |
| TopologyDocument.SwitchIdShapeIsNarrower | networking_opencontrail/ml2/dm_topology_loader.py:68-80 | every document the earlier schema (which requires `switch_id`) accepts is also accepted by the current schema |
| TopologyDocument.PortShape | networking_opencontrail/dm/dm_topology_loader.py:67-80 | definition of the port items of the schema: an object with string `switch_name` and `port_name`, an optional string `name`, and, in the earlier schema, a string `switch_id` |
| TopologyDocument.NodeShape | networking_opencontrail/dm/dm_topology_loader.py:57-80 | definition of the node items of the schema: an object with a string `name` and a `ports` array of port items |
| TopologyDocument.DocShape | networking_opencontrail/dm/dm_topology_loader.py:52-81 | definition of the schema: an object whose required `nodes` is an array of node items |
| TopologyDocument.Decode | networking_opencontrail/dm/dm_topology_loader.py:52-81 | the typed topology has one node per node item, with the names in document order |
| TopologyDocument.EncodePortRoundTrip | networking_opencontrail/dm/dm_topology_loader.py:67-80 | a port's document has the port schema (with `switch_id` when the port has one) and reads back as the same port |
| TopologyDocument.EncodeNodeRoundTrip | networking_opencontrail/dm/dm_topology_loader.py:57-80 | a node's document has the node schema and reads back as the same node |
| TopologyDocument.EncodeRoundTrip | networking_opencontrail/dm/dm_topology_loader.py:37-86 | every topology has a document the schema accepts (the `switch_id` schema too, when every port has an id), and decoding that document gives the topology back |
| TopologyDocument.DistinctIffSetSize | networking_opencontrail/dm/dm_topology_loader.py:88-91 | the set of names is as large as the list exactly when no name repeats |
| TopologyDocument.Matching | networking_opencontrail/dm/dm_topology.py:52 | every node the comprehension keeps is a node of the topology carrying the host's name |
| TopologyDocument.UniqueNode | networking_opencontrail/dm/dm_topology.py:51-55 | a node found is a node of the topology with the host's name; no host finds nothing |
| TopologyDocument.UniqueNodeSpec | networking_opencontrail/dm/dm_topology.py:51-55 | a node is found exactly when exactly one node has the name, and then it is that node |
| TopologyDocument.UniqueNodeOfDistinct | networking_opencontrail/dm/dm_topology.py:51-55 | in a topology without repeated names, every node's name finds that node |
| TopologyDocument.UniqueNodeOfDuplicate | networking_opencontrail/dm/dm_node_helper.py:69-76 | a name that two nodes share finds nothing |
| DmTopologyLoader.Validate | networking_opencontrail/dm/dm_topology_loader.py:33-91 | a document is accepted exactly when it has the schema's shape and no node name repeats; the result is the decoded document; every rejection is ConfigInvalidFormat |
| DmTopologyLoader.Load | networking_opencontrail/dm/dm_topology_loader.py:25-31 | with no path it fails with NoTopologyFile; with a path it accepts exactly the valid documents; a loaded topology has distinct names |
| DmTopologyLoader.LoadEncoded | networking_opencontrail/dm/dm_topology_loader.py:25-91 | a topology without repeated names loads from its own document unchanged |
| DmTopologyLoader.DuplicateNamesRejected | networking_opencontrail/dm/dm_topology_loader.py:88-91 | two node items with the same name make the load fail with ConfigInvalidFormat |
| DmTopologyLoader.MissingNodesRejected | networking_opencontrail/dm/dm_topology_loader.py:52-56 | an object without `nodes` fails with ConfigInvalidFormat |
| DmTopologyLoader.NullRejected | networking_opencontrail/dm/dm_topology_loader.py:52-53 | an empty document (null) fails with ConfigInvalidFormat |
| Ml2TopologyLoader.Validate | networking_opencontrail/ml2/dm_topology_loader.py:33-86 | a document is accepted exactly when it has the schema's shape with `switch_id` required, and then the result is the decoded document, with a switch id on every port; a rejection is ConfigInvalidFormat |
| Ml2TopologyLoader.DecodedHasSwitchIds | networking_opencontrail/ml2/dm_topology_loader.py:68-80 | a document of that schema decodes to ports that all have a switch id |
| Ml2TopologyLoader.Load | networking_opencontrail/ml2/dm_topology_loader.py:25-31 | with no path it fails with NoTopologyFile; otherwise it accepts exactly the documents of the schema and returns the decoded document; the only errors are NoTopologyFile and ConfigInvalidFormat |
| Ml2TopologyLoader.LoadEncoded | networking_opencontrail/ml2/dm_topology_loader.py:25-86 | a topology with switch ids everywhere loads from its own document unchanged, repeated names included |
| Ml2TopologyLoader.DuplicatesAcceptedHereOnly | networking_opencontrail/ml2/dm_topology_loader.py:33-86 | a document with two nodes of the same name loads here and is rejected by the current loader |
| DmTopologySource.PortLinks | networking_opencontrail/dm/dm_topology.py:65-69 | a controller port contributes at most one link, and none exactly when no PI references it |
| DmTopologySource.Contains | networking_opencontrail/dm/dm_topology.py:29-32 | definition of `__contains__`: the unique-name lookup in file mode, the controller node in API mode; FileModeLookup and ApiModeLookup state it |
| DmTopologySource.ApiLinks | networking_opencontrail/dm/dm_topology.py:63-69 | definition of the walk over port references; ApiLinksSpec, ApiLinksAppend, ApiLinksSingle and ApiLinksCount state it |
| DmTopologySource.NodeFromApi | networking_opencontrail/dm/dm_topology.py:57-79 | definition of `_get_node_from_api`; ApiModeLookup states when it succeeds and that it otherwise fails with InvalidNode |
| DmTopologySource.NodeLookup | networking_opencontrail/dm/dm_topology.py:37-45 | definition of `get_node`; FileModeLookup and ApiModeLookup state it |
| DmTopologySource.ApiLinksAppend | networking_opencontrail/dm/dm_topology.py:63-69 | walking two lists of port references one after the other gives the same result as walking their concatenation |
| DmTopologySource.ApiLinksSpec | networking_opencontrail/dm/dm_topology.py:57-79 | the walk succeeds exactly when every reference names a port; its links are exactly those of the referenced ports that have a PI; it is empty exactly when none of them has one |
| DmTopologySource.ApiLinksSingle | networking_opencontrail/dm/dm_topology.py:63-69 | a single reference to a port contributes exactly that port's link (none when it has no PI), and a reference to no port fails the walk; with ApiLinksAppend this fixes the walk's result in reference order |
| DmTopologySource.ApiLinksCount | networking_opencontrail/dm/dm_topology.py:63-69 | a successful walk holds exactly one entry per reference naming a port with a PI back-reference |
| DmTopologySource.FileModeLookup | networking_opencontrail/dm/dm_topology.py:29-45 | in file mode, membership means exactly one node has the name; a lookup succeeds exactly for members, gives that node, and otherwise fails with NodeNotFound |
| DmTopologySource.ApiModeLookup | networking_opencontrail/dm/dm_topology.py:47-79 | in API mode, membership means the controller has the node; a lookup that succeeds gives a member, named after the host, with at least one link, each link taken from a referenced port; when the node and its port list exist, every reference names a port and one such port has a PI, the lookup succeeds with the links of the walk; a dangling reference and every other failure give InvalidNode |
| DmTopologySource.LookupFrame | networking_opencontrail/dm/dm_topology.py:29-79 | membership and lookup read only the controller's nodes and ports |
| DmTopologySource.DmTopology.constructor | networking_opencontrail/dm/dm_topology.py:24-27 | the source starts without a document, which is API mode |
| DmTopologySource.DmTopology.Initialize | networking_opencontrail/dm/dm_topology.py:34-35 | a successful load stores the topology; a failed load propagates its error and leaves the source as it was |
| DmTopologySource.DmTopology.GetNode | networking_opencontrail/dm/dm_topology.py:37-45 | the result is the lookup of the current mode |
| DmTopologySource.DmTopology.GetNodeFromApi | networking_opencontrail/dm/dm_topology.py:57-79 | the loop over port references computes the API walk |
| DmBindings.RefsCoverAllPortsSpec | networking_opencontrail/dm/dm_bindings_helper.py:96-100 | a VPG qualifies exactly when it references every port's PI and references nothing else |
| DmBindings.RefsCoverAllPorts | networking_opencontrail/dm/dm_bindings_helper.py:96-100 | definition of `_check_refs_to_all_ports` as set equality; RefsCoverAllPortsSpec states it element by element |
| DmBindings.Links | networking_opencontrail/dm/dm_bindings_helper.py:52-66 | definition of the profile loop; LinksSpec states it |
| DmBindings.LinksSpec | networking_opencontrail/dm/dm_bindings_helper.py:52-66 | the profile fails with FabricNotFound exactly when some switch has no fabric; otherwise it has one entry per port, in port order, naming the port, its switch and that switch's fabric |
| DmBindings.ReusableVpgSpec | networking_opencontrail/dm/dm_bindings_helper.py:85-94 | a VPG found is an automatic VPG covering exactly the host's PIs, and every back-referenced VPG before it is passed over; nothing is found exactly when every VPG is passed over; an error is MissingObject |
| DmBindings.ReusableVpg | networking_opencontrail/dm/dm_bindings_helper.py:85-94 | definition of the loop over back-references with `continue`; ReusableVpgSpec, ReusableVpgFound and ReusableVpgError state it |
| DmBindings.ReusableVpgFound | networking_opencontrail/dm/dm_bindings_helper.py:85-94 | an automatic VPG covering exactly the host's PIs, preceded only by VPGs that are passed over, is the one found |
| DmBindings.ReusableVpgError | networking_opencontrail/dm/dm_bindings_helper.py:85-94 | the search fails only with MissingObject, on a back-reference to an absent VPG that follows only VPGs that are passed over |
| DmBindings.ExistingVpg | networking_opencontrail/dm/dm_bindings_helper.py:76-94 | the only failures are an empty port list, a missing first PI and a dangling VPG reference |
| DmBindings.NodeBindings | networking_opencontrail/dm/dm_bindings_helper.py:52-74 | definition of the bindings of a node: profile, `baremetal` and the VPG when one is found; BindingsForHostSpec states it |
| DmBindings.BindingsForHost | networking_opencontrail/dm/dm_bindings_helper.py:49-74 | definition of `get_bindings_for_host`; BindingsForHostSpec states it |
| DmBindings.BindingsForHostSpec | networking_opencontrail/dm/dm_bindings_helper.py:49-74 | lookup errors propagate; a switch without a fabric gives FabricNotFound; a missing first PI gives PhysicalInterfaceNotFound; every error is one of the lookup, fabric, empty-port, PI or dangling-reference errors; when every switch has a fabric, the first PI exists and the VPG search does not fail, bindings are produced; they are the full profile and `baremetal`, plus `vpg` exactly when a named VPG is found |
| DmBindings.DmBindingsHelper.constructor | networking_opencontrail/dm/dm_bindings_helper.py:35-41 | the helper shares the client with a fresh topology source that has no document |
| DmBindings.DmBindingsHelper.Initialize | networking_opencontrail/dm/dm_bindings_helper.py:43-44 | initializes the source: the load's result or error |
| DmBindings.DmBindingsHelper.CheckHostManaged | networking_opencontrail/dm/dm_bindings_helper.py:46-47 | the answer is membership in the topology |
| DmBindings.DmBindingsHelper.GetBindingsForHost | networking_opencontrail/dm/dm_bindings_helper.py:49-74 | the profile loop and the VPG search compute the host's bindings |
| DmBindings.DmBindingsHelper.FindExistingVpg | networking_opencontrail/dm/dm_bindings_helper.py:76-94 | the loop with `continue` computes the VPG search on the first port's PI, or PhysicalInterfaceNotFound |
| DmNodes.NodeFromFile | networking_opencontrail/dm/dm_node_helper.py:69-76 | the lookup fails, with a missing attribute, exactly when no topology was loaded |
| DmNodes.NodeBindings | networking_opencontrail/dm/dm_node_helper.py:38-67 | definition of `get_bindings_for_node`; NodeBindingsSpec states it |
| DmNodes.NodeManagedSpec | networking_opencontrail/dm/dm_node_helper.py:34-36 | a host is managed exactly when exactly one node has its name; a duplicated name or no host is unmanaged |
| DmNodes.NodeBindingsSpec | networking_opencontrail/dm/dm_node_helper.py:38-67 | an unmanaged host gives NodeNotFound whatever the controller holds; a switch without a fabric gives FabricNotFound; when the first port's switch has a fabric and the VPG search does not fail, bindings are produced; they are the first port's link, `baremetal`, and `vpg` exactly when the first automatic VPG on that PI has a name; every error is NodeNotFound, EmptyPortList, FabricNotFound or MissingObject |
| DmNodes.DmNodeHelper.constructor | networking_opencontrail/dm/dm_node_helper.py:27-29 | no topology yet |
| DmNodes.DmNodeHelper.Initialize | networking_opencontrail/dm/dm_node_helper.py:31-32 | a successful load stores the topology; an error propagates |
| DmNodes.DmNodeHelper.CheckNodeManaged | networking_opencontrail/dm/dm_node_helper.py:34-36 | fails exactly before a load; otherwise answers whether the host has a node |
| DmNodes.DmNodeHelper.GetBindingsForNode | networking_opencontrail/dm/dm_node_helper.py:38-67 | computes the node helper's bindings |
| DmNodes.DmNodeHelper.FindExistingVpg | networking_opencontrail/dm/dm_node_helper.py:78-87 | the loop finds the first automatic VPG on the PI, or none when the PI is missing |
| DmIntegration.VlanTag | networking_opencontrail/dm/dm_integrator.py:150-158 | a tag, when there is one, lies in 1..4094 |
| DmIntegration.VlanTagSpec | networking_opencontrail/dm/dm_integrator.py:150-158 | a network is tagged exactly when it is a VLAN network whose segmentation id is a valid IEEE 802.1Q VLAN identifier, and then with that id; no id, 0 and 4095 give no tag |
| DmIntegration.VmiName | networking_opencontrail/dm/dm_integrator.py:160-166 | definition of `_make_vmi_name` over the network and the host; VmiNameInjective states what it identifies |
| DmIntegration.VmiNameInjective | networking_opencontrail/dm/dm_integrator.py:160-166 | for network ids without underscores, two VMI names are equal exactly when the networks and the hosts are equal |
| DmIntegration.DataChangedSpec | networking_opencontrail/dm/dm_integrator.py:117-121 | a port changed exactly when its host, device, owner or network differs, an absent field counting as None |
| DmIntegration.DataChanged | networking_opencontrail/dm/dm_integrator.py:117-121 | a port reported as changed differs from the previous one |
| DmIntegration.HasRequiredFields | networking_opencontrail/dm/dm_integrator.py:123-127 | holds exactly when host, device, owner and network are all present |
| DmIntegration.ShouldBeTagged | networking_opencontrail/dm/dm_integrator.py:129-140 | an eligible port has all the required fields |
| DmIntegration.ShouldBeTaggedSpec | networking_opencontrail/dm/dm_integrator.py:129-140 | a port is eligible exactly when it has the required fields, its host is managed in the current mode, its device id is non-empty and its owner starts with `compute:` |
| DmIntegration.ShouldBeTaggedFrame | networking_opencontrail/dm/dm_integrator.py:129-140 | eligibility reads only the controller's nodes and ports |
| DmIntegration.VmiFqName | networking_opencontrail/dm/dm_integrator.py:97-100 | the name is formed exactly when the port has a tenant the controller has a project for, and then it is that project's fully qualified name followed by the pair's VMI name; otherwise a missing key or a missing object |
| DmIntegration.SharedVmi | networking_opencontrail/dm/dm_integrator.py:97-100 | two ports of one tenant on the same network and host address the same VMI |
| DmIntegration.VmiFqNameInjective | networking_opencontrail/dm/dm_integrator.py:97-100 | with network ids free of underscores, two ports name the same VMI exactly when their tenants' projects and their (network, host) pairs are the same |
| DmIntegration.DeleteSpec | networking_opencontrail/dm/dm_integrator.py:91-115 | definition of `delete_vlan_tagging_for_port` over controller states; DeleteSpecEffect and EligiblePortKeepsVmi state it |
| DmIntegration.DeleteSpecEffect | networking_opencontrail/dm/dm_integrator.py:91-115 | a port without the required fields changes nothing and returns normally; only VMIs and VPGs ever change; a failure changes nothing; the VMIs change only by removing the pair's VMI, which happens exactly when that VMI exists, no port on the pair is eligible and the detach succeeds; the VPGs are then those of the detach (the VMI leaves its first VPG), and otherwise nothing changes; with the name formed, an absent VMI or an eligible port on the pair returns normally with nothing changed, and a present VMI whose first back-referenced VPG exists (or that has none) is detached and removed with a normal return; a name that cannot be formed fails with its error; the only errors are MissingKey and MissingObject |
| DmIntegration.EligiblePortKeepsVmi | networking_opencontrail/dm/dm_integrator.py:104-110 | one eligible port left on the pair leaves the controller unchanged; the delete returns normally when the VMI name can be formed, and otherwise fails with the naming error |
| DmIntegration.CreateSpec | networking_opencontrail/dm/dm_integrator.py:55-88 | definition of the create half of the sync; CreateSpecEffect, ExistingVmiBlocksCreate and CreateIdempotent state it |
| DmIntegration.CreateSpecEffect | networking_opencontrail/dm/dm_integrator.py:55-88 | only the VMIs change, and a failure changes nothing; a new VMI is added only for an eligible port on a tagged VLAN network the controller knows, when no VMI of that name exists and the bindings can be made; for such a port under those conditions the create always adds exactly that VMI, carrying the network, the tag and the host's bindings; an ineligible port, a network without a usable tag, an existing VMI and a virtual network the controller lacks each return normally with nothing changed; a network the core plugin lacks fails with NetworkNotFound, and a name or bindings that cannot be made fail with their error |
| DmIntegration.ExistingVmiBlocksCreate | networking_opencontrail/dm/dm_integrator.py:67-75 | once the pair's VMI exists, a create changes nothing; it returns normally when the core plugin knows the network, and its only failure is NetworkNotFound when it does not |
| DmIntegration.CreateIdempotent | networking_opencontrail/dm/dm_integrator.py:51-89 | repeating a successful create changes nothing |
| DmIntegration.SyncSpec | networking_opencontrail/dm/dm_integrator.py:51-89 | definition of `sync_vlan_tagging_for_port`; SyncSpecSteps, SyncRemovesPreviousVmi, SyncUnchangedNeverDeletes and SyncIdempotent state it |
| DmIntegration.SyncSpecSteps | networking_opencontrail/dm/dm_integrator.py:51-89 | with a tracked field changed, the delete for the previous port runs first: its failure ends the sync with that failure and no change, and otherwise the create for the current port runs on the state the delete left; with no field changed, the sync is the create alone |
| DmIntegration.SyncRemovesPreviousVmi | networking_opencontrail/dm/dm_integrator.py:51-53 | when the tracked fields changed and the previous pair's VMI can be deleted, it is gone after the sync, unless the current port is eligible and names that same VMI |
| DmIntegration.SyncUnchangedNeverDeletes | networking_opencontrail/dm/dm_integrator.py:51-53 | an update that keeps the tracked fields deletes no VMI, changes no existing VMI and touches no VPG |
| DmIntegration.UntaggedOrMissingNetworkNoChange | networking_opencontrail/dm/dm_integrator.py:61-80 | with unchanged fields, a network without a tag, or one the controller lacks, leaves the controller unchanged; the sync then returns normally, unless the VMI name cannot be formed, in which case it fails with that error |
| DmIntegration.SyncIdempotent | networking_opencontrail/dm/dm_integrator.py:51-89 | syncing the same port again after a successful sync changes nothing |
| DmIntegration.DeviceManagerIntegrator.constructor | networking_opencontrail/dm/dm_integrator.py:43-45 | the integrator shares one client with a fresh helper and a source that has no document |
| DmIntegration.DeviceManagerIntegrator.Initialize | networking_opencontrail/dm/dm_integrator.py:47-49 | disabled: nothing is loaded; enabled: the load's topology is stored, or its error is returned |
| DmIntegration.DeviceManagerIntegrator.CheckDataWasChanged | networking_opencontrail/dm/dm_integrator.py:117-121 | the loop over the four fields decides whether the port changed |
| DmIntegration.DeviceManagerIntegrator.CheckContainsRequiredFields | networking_opencontrail/dm/dm_integrator.py:123-127 | the loop decides whether the required fields are present |
| DmIntegration.DeviceManagerIntegrator.CheckShouldBeTagged | networking_opencontrail/dm/dm_integrator.py:129-140 | the answer is eligibility |
| DmIntegration.DeviceManagerIntegrator.DetachVmiFromVpg | networking_opencontrail/dm/dm_integrator.py:142-148 | the new controller state and the outcome are those of the detach specification |
| DmIntegration.DeviceManagerIntegrator.Delete | networking_opencontrail/dm/dm_integrator.py:91-115 | the new controller state and the outcome are those of the delete specification, the `any` loop included |
| DmIntegration.DeviceManagerIntegrator.Sync | networking_opencontrail/dm/dm_integrator.py:51-89 | the new controller state and the outcome are those of the sync specification |
| Ml2Integration.NodeForPortSpec | networking_opencontrail/ml2/dm_integrator.py:115-125 | a port without a host has no node; a port with a host and no loaded topology (the empty mapping) fails with a KeyError; otherwise it has a node exactly when exactly one node has the host's name, and then it is that node |
| Ml2Integration.NodeForPort | networking_opencontrail/ml2/dm_integrator.py:115-125 | definition of `_get_node_for_port`, with the empty mapping failing on its missing `nodes`; NodeForPortSpec states it |
| Ml2Integration.VlanTag | networking_opencontrail/ml2/dm_integrator.py:127-134 | a tag lies strictly between 0 and 4095 |
| Ml2Integration.VlanTagsAgree | networking_opencontrail/ml2/dm_integrator.py:127-134 | this generation's tag equals the current generation's for every network |
| Ml2Integration.VmiName | networking_opencontrail/ml2/dm_integrator.py:173-178 | definition of `_make_vmi_name` over the device and the network; VmiNameInjective states what it identifies |
| Ml2Integration.VmiNameInjective | networking_opencontrail/ml2/dm_integrator.py:173-178 | for device ids without underscores, two VMI names are equal exactly when the devices and the networks are equal |
| Ml2Integration.NamesOfGenerationsDiffer | networking_opencontrail/ml2/dm_integrator.py:173-178 | no VMI name of this generation equals a VMI name of the current one |
| Ml2Integration.Bindings | networking_opencontrail/ml2/dm_integrator.py:136-160 | definition of `_get_bindings`; BindingsSpec states it |
| Ml2Integration.BindingsSpec | networking_opencontrail/ml2/dm_integrator.py:136-160 | no ports gives EmptyPortList; a switch without a fabric gives FabricNotFound; a first port without a switch id gives a missing key; when the switch has a fabric, the port has a switch id and the VPG search does not fail, bindings are produced; every error is one of those or a dangling VPG reference; the bindings are the first port's link with its switch id, `baremetal`, and `vpg` exactly when the first automatic VPG on that PI has a name |
| Ml2Integration.VmiFqName | networking_opencontrail/ml2/dm_integrator.py:93-96 | the name is formed exactly when the port has a tenant the controller has a project for, and then it is that project's fully qualified name followed by the (device, network) VMI name; otherwise a missing key or a missing object |
| Ml2Integration.VmiFqNameInjective | networking_opencontrail/ml2/dm_integrator.py:93-96 | with device ids free of underscores, two ports name the same VMI exactly when their tenants' projects and their (device, network) pairs are the same |
| Ml2Integration.CreateSpec | networking_opencontrail/ml2/dm_integrator.py:48-85 | definition of `create_vlan_tagging_for_port`; CreateSkipped, CreateSpecEffect and CreateIdempotent state it |
| Ml2Integration.CreateSkipped | networking_opencontrail/ml2/dm_integrator.py:48-55 | without a node or a device id, a create does nothing, whatever the plugin and the controller hold |
| Ml2Integration.CreateSpecEffect | networking_opencontrail/ml2/dm_integrator.py:48-85 | only the VMIs change, and a failure changes nothing; a new (device, network) VMI is added only when the host has a unique node, the port has a device, the network is a tagged VLAN network the controller knows and no VMI of that name exists; under those conditions, with bindings that can be made, the create always adds exactly that VMI carrying the first-port bindings; with a node and a device, no usable tag, an existing VMI and a virtual network the controller lacks each return normally; a port with a host and no loaded topology, or a missing network id, fail with MissingKey, a network the core plugin lacks with NetworkNotFound, and a name or bindings that cannot be made with their error |
| Ml2Integration.CreateIdempotent | networking_opencontrail/ml2/dm_integrator.py:48-85 | repeating a successful create changes nothing |
| Ml2Integration.DeleteSpec | networking_opencontrail/ml2/dm_integrator.py:87-105 | definition of `delete_vlan_tagging_for_port`; DeleteSpecEffect states it |
| Ml2Integration.DeleteSpecEffect | networking_opencontrail/ml2/dm_integrator.py:87-105 | without a node or a device id, or without the pair's VMI, nothing changes and the delete returns normally; a port with a host and no loaded topology fails with MissingKey; a failure changes nothing; any change is the detach followed by the removal of the pair's VMI; when the host has a node, the port has a device and the pair's VMI exists, the VMI is detached from its first VPG and removed with a normal return whenever that VPG exists or there is none; the only errors are MissingKey and MissingObject |
| Ml2Integration.ReuseWithoutSetCheck | networking_opencontrail/ml2/dm_integrator.py:162-171 | an automatic VPG over more PIs than the host's one link is reused here and passed over by the current generation |
| Ml2Integration.DeviceManagerIntegrator.constructor | networking_opencontrail/ml2/dm_integrator.py:39-41 | no topology yet |
| Ml2Integration.DeviceManagerIntegrator.Initialize | networking_opencontrail/ml2/dm_integrator.py:43-46 | the topology becomes the empty mapping, and the loaded document when the integration is enabled and the load succeeds; a load error is returned |
| Ml2Integration.DeviceManagerIntegrator.FindExistingVpg | networking_opencontrail/ml2/dm_integrator.py:162-171 | the loop finds the first automatic VPG on the PI |
| Ml2Integration.DeviceManagerIntegrator.GetBindings | networking_opencontrail/ml2/dm_integrator.py:136-160 | computes the first-port bindings |
| Ml2Integration.DeviceManagerIntegrator.DetachVmiFromVpg | networking_opencontrail/ml2/dm_integrator.py:107-113 | the new state and outcome are those of the detach specification |
| Ml2Integration.DeviceManagerIntegrator.Create | networking_opencontrail/ml2/dm_integrator.py:48-85 | the new state and outcome are those of the create specification |
| Ml2Integration.DeviceManagerIntegrator.Delete | networking_opencontrail/ml2/dm_integrator.py:87-105 | the new state and outcome are those of the delete specification |

## Left out

- Reading YAML, the `jsonschema` library and `yaml.safe_load`/`yaml.load`: the loaded document is a parameter. The schema is modelled as the predicate it encodes, and `type` and other extra keys are dropped when the document is decoded.
- The configuration (`cfg.CONF.DM_INTEGRATION.enabled` and `topology`): passed as parameters. An empty path stands for an unset option.
- The Neutron core plugin and its request context: passed as a value (`CorePlugin`) holding the networks and the ports in listing order. An unknown network gives NetworkNotFound.
- The client `drivers/vnc_api_driver.py` is not part of this model. Its reads are lookups in the controller's maps, and its writes are the three `Controller` mutators. The controller is not modelled as attaching a created VMI to a VPG, so a new VMI has no back-references.
- Logging: not modelled. This includes `port['id']` in the log lines; a port without an `id` would raise there.
- `json.dumps` of the profile: the profile is kept as a structured value, not as a JSON string.
- `uuid.UUID(port['tenant_id'])`: projects are keyed by the tenant id as given. A tenant id that is not a UUID is not modelled.
- DmIntegration.VlanTag: a `None` segmentation id on a VLAN network gives no tag, as Python 2 compares it. Python 3 would raise TypeError.
- PI references: only the last two components of a PI's fully qualified name are modelled. An IndexError from a shorter name is not modelled.
- Ml2Integration.NodeForPort: before `initialize`, the topology attribute does not exist, which raises AttributeError. The model treats that attribute as the empty mapping, which gives a KeyError (`MissingKey`).
- Ml2Integration.CreateSpec: takes the inner `port['port']` dictionary. The outer wrapper is not modelled.
- Port dictionaries are maps from field to string. A field that is present but holds `None` cannot be represented, so it reads like an absent field. The source would not raise a KeyError on such a field and would compare `None` on it.
- Concurrency between port events, and the controller changing between reads: not modelled. Each operation sees one controller state.
