/** The fabric controller as the integrators see it through the client:
    virtual machine interfaces (VMIs) by fully qualified name, virtual port
    groups (VPGs) and physical interfaces (PIs) with their references, the
    fabric of every switch, the controller's own nodes and ports, projects
    and virtual networks. Reads of an absent object give None. */
module Fabric {
  import opened Base

  type FqName = seq<string>

  /** A reference to a physical interface, by the last two components of its
      fully qualified name: `to[-2]` (the switch) and `to[-1]` (the port). */
  datatype PiName = PiName(switchName: string, portName: string)

  /** A VPG: the last component of its name, whether an operator made it,
      the PIs it aggregates and the VMIs it carries. */
  datatype Vpg = Vpg(name: string, userCreated: bool, piRefs: seq<PiName>, vmiRefs: seq<FqName>)

  /** A PI with the uuids of the VPGs that reference it, in reference order. */
  datatype PhysicalInterface = PhysicalInterface(vpgBackRefs: seq<string>)

  /** One entry of `local_link_information`; `switch_id` is written only by
      the earlier variant. */
  datatype LocalLink = LocalLink(portId: string, switchId: Option<string>, switchInfo: string, fabric: string)

  /** The key-value pairs of a VMI's bindings: `profile`, `vnic_type`, `vpg`. */
  datatype KeyValue = Profile(links: seq<LocalLink>) | VnicType(vnic: string) | VpgBinding(vpg: string)

  const BAREMETAL := "baremetal"

  /** A VMI: its network, the VLAN tag of its properties, its bindings and the
      uuids of the VPGs that reference it. */
  datatype Vmi = Vmi(network: string, vlanTag: int, bindings: seq<KeyValue>, vpgBackRefs: seq<string>)

  /** A controller node; `get_ports()` may give None. */
  datatype ApiNode = ApiNode(portRefs: Option<seq<string>>)

  /** A controller port: the last component of its name and the PIs that
      reference it. */
  datatype ApiPort = ApiPort(name: string, piBackRefs: seq<PiName>)

  datatype FabricState = FabricState(
    vmis: map<FqName, Vmi>,
    vpgs: map<string, Vpg>,
    pis: map<PiName, PhysicalInterface>,
    fabrics: map<string, string>,
    nodes: map<string, ApiNode>,
    ports: map<string, ApiPort>,
    projects: map<string, FqName>,
    networks: set<string>)

  /** `read_fabric_name_from_switch`, with an empty name read as none, as the
      callers' `if not fabric_name` does. */
  function FabricName(f: FabricState, switch: string): (r: Option<string>)
    ensures r.Some? <==> switch in f.fabrics && f.fabrics[switch] != ""
    ensures r.Some? ==> r.value == f.fabrics[switch] && r.value != ""
  {
    if switch in f.fabrics && f.fabrics[switch] != "" then Some(f.fabrics[switch]) else None
  }

  /** The references of a VPG with every reference to `fq` removed. */
  function RemoveRef(refs: seq<FqName>, fq: FqName): (r: seq<FqName>)
  {
    if refs == [] then []
    else if refs[0] == fq then RemoveRef(refs[1..], fq)
    else [refs[0]] + RemoveRef(refs[1..], fq)
  }

  lemma {:induction false} RemoveRefSpec(refs: seq<FqName>, fq: FqName)
    ensures fq !in RemoveRef(refs, fq)
    ensures forall x :: x in RemoveRef(refs, fq) <==> x in refs && x != fq
    ensures fq !in refs ==> RemoveRef(refs, fq) == refs
  {
    if refs != [] {
      RemoveRefSpec(refs[1..], fq);
      assert refs == [refs[0]] + refs[1..];
    }
  }

  /** `vpg.del_virtual_machine_interface(vmi)`. */
  function WithoutVmi(vpg: Vpg, fq: FqName): (r: Vpg)
    ensures fq !in r.vmiRefs
    ensures forall x :: x in r.vmiRefs <==> x in vpg.vmiRefs && x != fq
    ensures r.name == vpg.name && r.userCreated == vpg.userCreated && r.piRefs == vpg.piRefs
  {
    RemoveRefSpec(vpg.vmiRefs, fq);
    vpg.(vmiRefs := RemoveRef(vpg.vmiRefs, fq))
  }

  /** The search of the earlier generation: the name of the first VPG, in
      back-reference order, that an operator did not create. A missing PI
      gives no VPG; a back-reference to an absent VPG fails on the None. */
  function FirstAutoVpg(f: FabricState, uuids: seq<string>): (r: Result<Option<string>>)
  {
    if uuids == [] then Ok(None)
    else if uuids[0] !in f.vpgs then Err(MissingObject)
    else if !f.vpgs[uuids[0]].userCreated then Ok(Some(f.vpgs[uuids[0]].name))
    else FirstAutoVpg(f, uuids[1..])
  }

  /** `_find_existing_vpg(switch, port)` of the earlier generation. */
  function AutoVpgOnPi(f: FabricState, pi: PiName): Result<Option<string>>
  {
    if pi !in f.pis then Ok(None) else FirstAutoVpg(f, f.pis[pi].vpgBackRefs)
  }

  /** What FirstAutoVpg finds: a VPG at some back-reference that is not
      user-created, every one before it being user-created. */
  lemma {:induction false} FirstAutoVpgSpec(f: FabricState, uuids: seq<string>)
    ensures FirstAutoVpg(f, uuids).Ok? && FirstAutoVpg(f, uuids).value.Some? ==>
      exists k :: 0 <= k < |uuids| && uuids[k] in f.vpgs && !f.vpgs[uuids[k]].userCreated
        && FirstAutoVpg(f, uuids).value.value == f.vpgs[uuids[k]].name
        && forall j :: 0 <= j < k ==> uuids[j] in f.vpgs && f.vpgs[uuids[j]].userCreated
    ensures FirstAutoVpg(f, uuids) == Ok(None) <==>
      forall j :: 0 <= j < |uuids| ==> uuids[j] in f.vpgs && f.vpgs[uuids[j]].userCreated
  {
    if uuids != [] && uuids[0] in f.vpgs && f.vpgs[uuids[0]].userCreated {
      FirstAutoVpgSpec(f, uuids[1..]);
      var r := FirstAutoVpg(f, uuids);
      if r.Ok? && r.value.Some? {
        var k :| 0 <= k < |uuids[1..]| && uuids[1..][k] in f.vpgs && !f.vpgs[uuids[1..][k]].userCreated
          && r.value.value == f.vpgs[uuids[1..][k]].name
          && forall j :: 0 <= j < k ==> uuids[1..][j] in f.vpgs && f.vpgs[uuids[1..][j]].userCreated;
        assert uuids[k + 1] == uuids[1..][k];
        forall j | 0 <= j < k + 1 ensures uuids[j] in f.vpgs && f.vpgs[uuids[j]].userCreated {
          if j > 0 { assert uuids[j] == uuids[1..][j - 1]; }
        }
      }
      if forall j :: 0 <= j < |uuids[1..]| ==> uuids[1..][j] in f.vpgs && f.vpgs[uuids[1..][j]].userCreated {
        forall j | 0 <= j < |uuids| ensures uuids[j] in f.vpgs && f.vpgs[uuids[j]].userCreated {
          if j > 0 { assert uuids[j] == uuids[1..][j - 1]; }
        }
      }
    }
  }

  /** A VPG that no operator created, preceded only by present user-created
      VPGs, is the one found. */
  lemma {:induction false} FirstAutoVpgFound(f: FabricState, uuids: seq<string>, k: nat)
    requires k < |uuids| && uuids[k] in f.vpgs && !f.vpgs[uuids[k]].userCreated
    requires forall j :: 0 <= j < k ==> uuids[j] in f.vpgs && f.vpgs[uuids[j]].userCreated
    ensures FirstAutoVpg(f, uuids) == Ok(Some(f.vpgs[uuids[k]].name))
  {
    if k > 0 {
      assert uuids[0] in f.vpgs && f.vpgs[uuids[0]].userCreated;
      assert forall j :: 0 <= j < k - 1 ==> uuids[1..][j] == uuids[j + 1];
      FirstAutoVpgFound(f, uuids[1..], k - 1);
    }
  }

  /** The search fails only on a back-reference to an absent VPG reached
      after present user-created ones, and then with MissingObject. */
  lemma {:induction false} FirstAutoVpgError(f: FabricState, uuids: seq<string>)
    ensures FirstAutoVpg(f, uuids).Err? ==>
      && FirstAutoVpg(f, uuids).error == MissingObject
      && exists k :: 0 <= k < |uuids| && uuids[k] !in f.vpgs && forall j :: 0 <= j < k ==> uuids[j] in f.vpgs && f.vpgs[uuids[j]].userCreated
  {
    if uuids != [] && uuids[0] in f.vpgs && f.vpgs[uuids[0]].userCreated {
      var rest := uuids[1..];
      FirstAutoVpgError(f, rest);
      if FirstAutoVpg(f, rest).Err? {
        var k :| 0 <= k < |rest| && rest[k] !in f.vpgs && forall j :: 0 <= j < k ==> rest[j] in f.vpgs && f.vpgs[rest[j]].userCreated;
        assert uuids[k + 1] == rest[k];
        forall j | 0 <= j < k + 1 ensures uuids[j] in f.vpgs && f.vpgs[uuids[j]].userCreated {
          if j > 0 { assert uuids[j] == rest[j - 1]; }
        }
      }
    }
  }

  /** The controller state after an operation and how the operation ended. */
  datatype Step = Step(state: FabricState, outcome: Outcome)

  /** `_detach_vmi_from_vpg`, the same in both generations: remove the VMI
      from the VPG of its first back-reference and push that VPG back. */
  function DetachSpec(f: FabricState, fq: FqName, vmi: Vmi): (r: Step)
  {
    if vmi.vpgBackRefs == [] then Step(f, Done)
    else if vmi.vpgBackRefs[0] !in f.vpgs then Step(f, Failed(MissingObject))
    else Step(f.(vpgs := f.vpgs[vmi.vpgBackRefs[0] := WithoutVmi(f.vpgs[vmi.vpgBackRefs[0]], fq)]), Done)
  }

  /** The detach fails exactly when the first back-referenced VPG is absent,
      and then with MissingObject. Without back-references no VPG is
      touched; otherwise only the first back-referenced VPG changes, and it
      loses exactly its references to the VMI. */
  lemma DetachSpecEffect(f: FabricState, fq: FqName, vmi: Vmi)
    ensures (vmi.vpgBackRefs == [] || vmi.vpgBackRefs[0] in f.vpgs) <==> DetachSpec(f, fq, vmi).outcome == Done
    ensures DetachSpec(f, fq, vmi).outcome.Failed? ==> DetachSpec(f, fq, vmi).outcome == Failed(MissingObject)
    ensures DetachSpec(f, fq, vmi).state.(vpgs := f.vpgs) == f
    ensures vmi.vpgBackRefs == [] ==> DetachSpec(f, fq, vmi) == Step(f, Done)
    ensures DetachSpec(f, fq, vmi).outcome.Failed? ==> DetachSpec(f, fq, vmi).state == f
    ensures vmi.vpgBackRefs != [] && DetachSpec(f, fq, vmi).outcome == Done ==>
      var u := vmi.vpgBackRefs[0];
      var g := DetachSpec(f, fq, vmi).state;
      && u in f.vpgs && g.vpgs.Keys == f.vpgs.Keys
      && (forall v :: v in f.vpgs && v != u ==> g.vpgs[v] == f.vpgs[v])
      && fq !in g.vpgs[u].vmiRefs
      && (forall x :: x in g.vpgs[u].vmiRefs <==> x in f.vpgs[u].vmiRefs && x != fq)
      && g.vpgs[u].piRefs == f.vpgs[u].piRefs && g.vpgs[u].userCreated == f.vpgs[u].userCreated
  {
  }

  /** The client's view of the controller. Its mutators are the only calls
      through which the integrators change controller state. */
  class Controller {
    var vmis: map<FqName, Vmi>
    var vpgs: map<string, Vpg>
    var pis: map<PiName, PhysicalInterface>
    var fabrics: map<string, string>
    var nodes: map<string, ApiNode>
    var ports: map<string, ApiPort>
    var projects: map<string, FqName>
    var networks: set<string>

    function State(): FabricState
      reads this
    {
      FabricState(vmis, vpgs, pis, fabrics, nodes, ports, projects, networks)
    }

    constructor (s: FabricState)
      ensures State() == s
    {
      vmis, vpgs, pis, fabrics := s.vmis, s.vpgs, s.pis, s.fabrics;
      nodes, ports, projects, networks := s.nodes, s.ports, s.projects, s.networks;
    }

    /** `create_virtual_machine_interface`. */
    method CreateVmi(fq: FqName, vmi: Vmi)
      modifies this
      ensures State() == old(State()).(vmis := old(vmis)[fq := vmi])
    {
      vmis := vmis[fq := vmi];
    }

    /** `delete_virtual_machine_interface(fq_name=...)`; deleting an absent
      VMI is not an error. */
    method DeleteVmi(fq: FqName)
      modifies this
      ensures State() == old(State()).(vmis := old(vmis) - {fq})
    {
      vmis := vmis - {fq};
    }

    /** `update_virtual_port_group`. */
    method UpdateVpg(uuid: string, vpg: Vpg)
      modifies this
      ensures State() == old(State()).(vpgs := old(vpgs)[uuid := vpg])
    {
      vpgs := vpgs[uuid := vpg];
    }
  }
}
