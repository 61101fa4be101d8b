/**
 * `RelationshipsContentDescriptor::create`: the relationship-inclusion
 * parameter. Unlike fields and filters, a property has no `name` sub-key:
 * it is `{type, items}` only.
 */
module RelationshipsContentDescriptor {
  import opened Json
  import opened ResourceDescriptor

  const Name := "relationships"
  const Description := "The relationships to return for each resource. If not specified, no relationships will be returned."
  const RelationshipsShape := Shape(withName := false, withDescending := false)

  /** The descriptor `create($relationships)` returns; `None` is PHP's `null`. */
  function Spec(relationships: ResourceMap): Option<Json>
  {
    Descriptor(Name, Description, RelationshipsShape, relationships)
  }

  method Create(relationships: ResourceMap) returns (r: Option<Json>)
    ensures r == Spec(relationships)
    ensures r.None? <==> relationships == []
  {
    r := Build(Name, Description, RelationshipsShape, relationships);
  }

  /**
   * A non-empty descriptor is named "relationships", carries the fixed description,
   * has an object schema, and its properties are the input's resources in
   * input order.
   */
  lemma Header(relationships: ResourceMap)
    requires relationships != []
    requires DistinctKeys(relationships)
    ensures Spec(relationships).Some?
    ensures var d := Spec(relationships).value;
      && Keys(d.members) == ["name", "description", "schema"]
      && At(d, ["name"]) == Some(JStr("relationships"))
      && At(d, ["description"]) == Some(JStr(Description))
      && At(d, ["schema", "type"]) == Some(JStr("object"))
      && At(d, ["schema", "properties"]) == Some(JObj(Properties(RelationshipsShape, relationships)))
      && Keys(Properties(RelationshipsShape, relationships)) == Keys(relationships)
  {
    DescriptorLayout(Name, Description, RelationshipsShape, relationships);
  }

  /**
   * The property of a resource of the input, and its `items.enum`: the
   * resource's relationship list verbatim, in order.
   */
  lemma ResourceProperty(relationships: ResourceMap, resource: string, values: seq<string>)
    requires DistinctKeys(relationships)
    requires Find(relationships, resource) == Some(values)
    ensures Spec(relationships).Some?
    ensures var d := Spec(relationships).value;
      && At(d, ["schema", "properties", resource]) == Some(JObj([
           ("type", JStr("array")),
           ("items", JObj([("type", JStr("string")), ("enum", JArr(Strings(values)))]))
         ]))
      && At(d, ["schema", "properties", resource, "items", "enum"]) == Some(JArr(Strings(values)))
  {
    ResourcePropertyAt(Name, Description, RelationshipsShape, relationships, resource, values);
    assert Property(RelationshipsShape, resource, values) == JObj([
      ("type", JStr("array")),
      ("items", JObj([("type", JStr("string")), ("enum", JArr(Strings(values)))]))
    ]);
  }
}
