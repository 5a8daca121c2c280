/** The loader of the current generation: a configured path, a schema check
    and a check that no node name is repeated. */
module DmTopologyLoader {
  import opened Base
  import opened TopologyDocument

  /** `validate`: the schema (without `switch_id`), then distinct node
      names, compared as the size of the set of names against the number of
      nodes. Both failures are ConfigInvalidFormat. */
  function Validate(doc: Json): (r: Result<Topology>)
    ensures r.Ok? <==> DocShape(doc, false) && Distinct(DocNames(doc))
    ensures r.Ok? ==> r.value == Decode(doc) && Distinct(Names(r.value.nodes))
    ensures r.Err? ==> r.error == ConfigInvalidFormat
  {
    if !DocShape(doc, false) then Err(ConfigInvalidFormat)
    else
      DistinctIffSetSize(DocNames(doc));
      if |SetOf(DocNames(doc))| != |NodeItems(doc)| then Err(ConfigInvalidFormat)
      else Ok(Decode(doc))
  }

  /** `load`: an empty or unset path is NoTopologyFile; otherwise the
      document read from it is validated. */
  function Load(path: string, doc: Json): (r: Result<Topology>)
    ensures path == "" ==> r == Err(NoTopologyFile)
    ensures path != "" ==> (r.Ok? <==> DocShape(doc, false) && Distinct(DocNames(doc)))
    ensures r.Ok? ==> Distinct(Names(r.value.nodes))
    ensures r.Err? ==> r.error in {NoTopologyFile, ConfigInvalidFormat}
  {
    if path == "" then Err(NoTopologyFile) else Validate(doc)
  }

  /** A topology without repeated names loads from its own document. */
  lemma LoadEncoded(path: string, t: Topology)
    requires path != "" && Distinct(Names(t.nodes))
    ensures Load(path, Encode(t)) == Ok(t)
  {
    EncodeRoundTrip(t);
  }

  /** Two node items with the same name make the document invalid, whatever
      else it holds. */
  lemma DuplicateNamesRejected(path: string, doc: Json, i: nat, j: nat)
    requires path != "" && DocShape(doc, false)
    requires i < j < |NodeItems(doc)| && DocNames(doc)[i] == DocNames(doc)[j]
    ensures Load(path, doc) == Err(ConfigInvalidFormat)
  {
  }

  /** A document without `nodes`, such as an empty mapping, is invalid. */
  lemma MissingNodesRejected(path: string, fields: map<string, Json>)
    requires path != "" && "nodes" !in fields
    ensures Load(path, JObj(fields)) == Err(ConfigInvalidFormat)
  {
  }

  /** An empty file reads as null, which is not an object. */
  lemma NullRejected(path: string)
    requires path != ""
    ensures Load(path, JNull) == Err(ConfigInvalidFormat)
  {
  }
}
