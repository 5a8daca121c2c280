/** Values shared by both generations of the Device Manager integration:
    optional values, the exceptions that leave the core, Neutron's port
    dictionaries and the answers of the Neutron core plugin. */
module Base {

  datatype Option<T> = None | Some(value: T)

  /** The exceptions the core raises or lets through. The last three are
      Python's own AttributeError, KeyError and IndexError, which the code
      does not catch. */
  datatype Error =
    | NoTopologyFile             // no topology path configured
    | ConfigInvalidFormat        // schema violation or duplicated node names
    | NodeNotFound               // host is not in the loaded topology
    | InvalidNode                // the controller's data for the node are unusable
    | FabricNotFound             // a switch has no fabric name
    | PhysicalInterfaceNotFound  // the first port has no physical interface
    | NetworkNotFound            // the core plugin does not know the network
    | MissingObject              // an attribute read on a None the controller returned
    | MissingKey                 // a dictionary lookup of an absent key
    | EmptyPortList              // ports[0] of a node without ports

  datatype Result<T> = Ok(value: T) | Err(error: Error)

  datatype Outcome = Done | Failed(error: Error)

  /** A Neutron port as the plugin hands it over: field name to value. */
  type PortDict = map<string, string>

  /** `port.get(key)`: None when the key is absent. */
  function Get(d: PortDict, key: string): Option<string>
  {
    if key in d then Some(d[key]) else None
  }

  /** `port.get(key, default)`. */
  function GetOr(d: PortDict, key: string, default: string): string
  {
    if key in d then d[key] else default
  }

  /** `s.startswith(prefix)`. */
  predicate StartsWith(s: string, prefix: string)
  {
    |prefix| <= |s| && s[..|prefix|] == prefix
  }

  /** `network.get('provider:segmentation_id', 0)` and
      `network.get('provider:network_type', '')`; a missing or null
      segmentation id is None. */
  datatype Network = Network(segmentationId: Option<int>, networkType: string)

  /** What the integrators read from the Neutron core plugin. */
  datatype CorePlugin = CorePlugin(networks: map<string, Network>, ports: seq<PortDict>)

  /** `get_ports(filters={'network_id': [net], 'binding:host_id': [host]})`,
      in the plugin's order. */
  function PortsOn(ports: seq<PortDict>, net: string, host: string): (r: seq<PortDict>)
    ensures forall p :: p in r <==> p in ports && Get(p, "network_id") == Some(net) && Get(p, "binding:host_id") == Some(host)
  {
    if ports == [] then []
    else
      var rest := PortsOn(ports[1..], net, host);
      if Get(ports[0], "network_id") == Some(net) && Get(ports[0], "binding:host_id") == Some(host)
      then [ports[0]] + rest
      else rest
  }

  /** A name built as `a + sep + b`, where `a` holds no underscore and `sep`
      starts with one, determines both of its parts. */
  lemma SplitAtSeparator(a1: string, b1: string, a2: string, b2: string, sep: string)
    requires '_' !in a1 && '_' !in a2 && |sep| > 0 && sep[0] == '_'
    requires a1 + sep + b1 == a2 + sep + b2
    ensures a1 == a2 && b1 == b2
  {
    var s := a1 + sep + b1;
    UnderscoreAt(a1, sep + b1);
    UnderscoreAt(a2, sep + b2);
    assert a1 + sep + b1 == a1 + (sep + b1) && a2 + sep + b2 == a2 + (sep + b2);
    assert a1 == s[..|a1|] == a2;
    assert b1 == s[|a1| + |sep|..] == b2;
  }

  lemma UnderscoreAt(a: string, rest: string)
    requires '_' !in a && |rest| > 0 && rest[0] == '_'
    ensures (a + rest)[|a|] == '_'
    ensures forall i :: 0 <= i < |a| ==> (a + rest)[i] != '_'
  {
    forall i | 0 <= i < |a| ensures (a + rest)[i] != '_' {
      assert (a + rest)[i] == a[i];
    }
  }
}
