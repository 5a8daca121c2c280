/** The loader of the earlier generation: a configured path and a schema
    that also demands a `switch_id` on every port; repeated names pass. */
module Ml2TopologyLoader {
  import opened Base
  import opened TopologyDocument
  import DmTopologyLoader

  /** `validate`: the schema with `switch_id` required. */
  function Validate(doc: Json): (r: Result<Topology>)
    ensures r.Ok? <==> DocShape(doc, true)
    ensures r.Ok? ==> r.value == Decode(doc) && HasSwitchIds(r.value)
    ensures r.Err? ==> r.error == ConfigInvalidFormat
  {
    if !DocShape(doc, true) then Err(ConfigInvalidFormat)
    else
      SwitchIdShapeIsNarrower(doc);
      DecodedHasSwitchIds(doc);
      Ok(Decode(doc))
  }

  lemma DecodedHasSwitchIds(doc: Json)
    requires DocShape(doc, true) && DocShape(doc, false)
    ensures HasSwitchIds(Decode(doc))
  {
    var t := Decode(doc);
    var nodes := NodeItems(doc);
    forall i, j | 0 <= i < |t.nodes| && 0 <= j < |t.nodes[i].ports| ensures t.nodes[i].ports[j].switchId.Some? {
      assert NodeShape(nodes[i], true);
      assert PortShape(nodes[i].fields["ports"].items[j], true);
    }
  }

  /** `load`: an empty or unset path is NoTopologyFile. */
  function Load(path: string, doc: Json): (r: Result<Topology>)
    ensures path == "" ==> r == Err(NoTopologyFile)
    ensures path != "" ==> (r.Ok? <==> DocShape(doc, true))
    ensures r.Ok? ==> r.value == Decode(doc) && HasSwitchIds(r.value)
    ensures r.Err? ==> r.error in {NoTopologyFile, ConfigInvalidFormat}
  {
    if path == "" then Err(NoTopologyFile) else Validate(doc)
  }

  /** A topology whose every port has a switch id loads from its own
      document. */
  lemma LoadEncoded(path: string, t: Topology)
    requires path != "" && HasSwitchIds(t)
    ensures Load(path, Encode(t)) == Ok(t)
  {
    EncodeRoundTrip(t);
  }

  /** Repeated names pass this loader and fail the current generation's:
      a document with two nodes called "n" is one. */
  lemma DuplicatesAcceptedHereOnly()
    ensures var p := TopoPort(None, "sw", "xe-0/0/1", Some("52:54:00:29:b1:a6"));
      var t := Topology([Node("n", [p]), Node("n", [p])]);
      Load("topology.yaml", Encode(t)) == Ok(t) && DmTopologyLoader.Load("topology.yaml", Encode(t)) == Err(ConfigInvalidFormat)
  {
    var p := TopoPort(None, "sw", "xe-0/0/1", Some("52:54:00:29:b1:a6"));
    var t := Topology([Node("n", [p]), Node("n", [p])]);
    EncodeRoundTrip(t);
    assert DocNames(Encode(t))[0] == DocNames(Encode(t))[1];
  }
}
