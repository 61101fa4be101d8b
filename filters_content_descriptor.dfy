/**
 * `FiltersContentDescriptor::create`: the filtering parameter. Same layout as
 * the fields descriptor: each property repeats the resource name under
 * `name` and lists the filterable fields.
 */
module FiltersContentDescriptor {
  import opened Json
  import opened ResourceDescriptor

  const Name := "filters"
  const Description := "The filters to apply to the resources. If not specified, no filters are applied."
  const FiltersShape := Shape(withName := true, withDescending := false)

  /** The descriptor `create($filters)` returns; `None` is PHP's `null`. */
  function Spec(filters: ResourceMap): Option<Json>
  {
    Descriptor(Name, Description, FiltersShape, filters)
  }

  method Create(filters: ResourceMap) returns (r: Option<Json>)
    ensures r == Spec(filters)
    ensures r.None? <==> filters == []
  {
    r := Build(Name, Description, FiltersShape, filters);
  }

  /**
   * A non-empty descriptor is named "filters", carries the fixed description,
   * has an object schema, and its properties are the input's resources in
   * input order.
   */
  lemma Header(filters: ResourceMap)
    requires filters != []
    requires DistinctKeys(filters)
    ensures Spec(filters).Some?
    ensures var d := Spec(filters).value;
      && Keys(d.members) == ["name", "description", "schema"]
      && At(d, ["name"]) == Some(JStr("filters"))
      && At(d, ["description"]) == Some(JStr(Description))
      && At(d, ["schema", "type"]) == Some(JStr("object"))
      && At(d, ["schema", "properties"]) == Some(JObj(Properties(FiltersShape, filters)))
      && Keys(Properties(FiltersShape, filters)) == Keys(filters)
  {
    DescriptorLayout(Name, Description, FiltersShape, filters);
  }

  /**
   * The property of a resource of the input, and its `items.enum`: the
   * resource's filter list verbatim, in order.
   */
  lemma ResourceProperty(filters: ResourceMap, resource: string, values: seq<string>)
    requires DistinctKeys(filters)
    requires Find(filters, resource) == Some(values)
    ensures Spec(filters).Some?
    ensures var d := Spec(filters).value;
      && At(d, ["schema", "properties", resource]) == Some(JObj([
           ("name", JStr(resource)), ("type", JStr("array")),
           ("items", JObj([("type", JStr("string")), ("enum", JArr(Strings(values)))]))
         ]))
      && At(d, ["schema", "properties", resource, "items", "enum"]) == Some(JArr(Strings(values)))
  {
    ResourcePropertyAt(Name, Description, FiltersShape, filters, resource, values);
    assert Property(FiltersShape, resource, values) == JObj([
      ("name", JStr(resource)), ("type", JStr("array")),
      ("items", JObj([("type", JStr("string")), ("enum", JArr(Strings(values)))]))
    ]);
  }
}
