/**
 * `SortsContentDescriptor::create`: the sorting parameter. A property has no
 * `name` sub-key, and its enum lists every sortable field first as given
 * (ascending) and then prefixed with `-` (descending), following the
 * "Sorting" section of the JSON:API 1.0 format.
 */
module SortsContentDescriptor {
  import opened Json
  import opened ResourceDescriptor

  const Name := "sorts"
  const Description := "The sort order of the resources. The order of the fields matter, the first fields have the highest priority. Prefix with \"-\" to sort in descending order. If not specified, the default sort order is used."
  const SortsShape := Shape(withName := false, withDescending := true)

  /** The descriptor `create($sorts)` returns; `None` is PHP's `null`. */
  function Spec(sorts: ResourceMap): Option<Json>
  {
    Descriptor(Name, Description, SortsShape, sorts)
  }

  method Create(sorts: ResourceMap) returns (r: Option<Json>)
    ensures r == Spec(sorts)
    ensures r.None? <==> sorts == []
  {
    r := Build(Name, Description, SortsShape, sorts);
  }

  /**
   * A non-empty descriptor is named "sorts", carries the fixed description,
   * has an object schema, and its properties are the input's resources in
   * input order.
   */
  lemma Header(sorts: ResourceMap)
    requires sorts != []
    requires DistinctKeys(sorts)
    ensures Spec(sorts).Some?
    ensures var d := Spec(sorts).value;
      && Keys(d.members) == ["name", "description", "schema"]
      && At(d, ["name"]) == Some(JStr("sorts"))
      && At(d, ["description"]) == Some(JStr(Description))
      && At(d, ["schema", "type"]) == Some(JStr("object"))
      && At(d, ["schema", "properties"]) == Some(JObj(Properties(SortsShape, sorts)))
      && Keys(Properties(SortsShape, sorts)) == Keys(sorts)
  {
    DescriptorLayout(Name, Description, SortsShape, sorts);
  }

  /**
   * The property of a resource of the input: `{type, items}` with no `name`,
   * whose enum is the resource's sort list followed by the same list with
   * every entry prefixed by `-`.
   */
  lemma ResourceProperty(sorts: ResourceMap, resource: string, values: seq<string>)
    requires DistinctKeys(sorts)
    requires Find(sorts, resource) == Some(values)
    ensures Spec(sorts).Some?
    ensures var d := Spec(sorts).value;
      && At(d, ["schema", "properties", resource]) == Some(JObj([
           ("type", JStr("array")),
           ("items", JObj([("type", JStr("string")), ("enum", JArr(Strings(values + Descending(values))))]))
         ]))
      && At(d, ["schema", "properties", resource, "items", "enum"])
         == Some(JArr(Strings(values + Descending(values))))
  {
    ResourcePropertyAt(Name, Description, SortsShape, sorts, resource, values);
    assert Property(SortsShape, resource, values) == JObj([
      ("type", JStr("array")),
      ("items", JObj([("type", JStr("string")), ("enum", JArr(Strings(values + Descending(values))))]))
    ]);
  }

  /**
   * The enum of a resource with n sortable fields has 2n entries: entry i is
   * field i, and entry n + i is its descending twin "-" + field i.
   */
  lemma DescendingTwins(sorts: ResourceMap, resource: string, values: seq<string>)
    requires DistinctKeys(sorts)
    requires Find(sorts, resource) == Some(values)
    ensures Spec(sorts).Some?
    ensures var e := At(Spec(sorts).value, ["schema", "properties", resource, "items", "enum"]);
      && e.Some? && e.value.JArr? && |e.value.items| == 2 * |values|
      && forall i :: 0 <= i < |values| ==>
           e.value.items[i] == JStr(values[i]) && e.value.items[|values| + i] == JStr("-" + values[i])
  {
    ResourceProperty(sorts, resource, values);
    var n := |values|;
    var es := SortEnum(values);
    assert SortEnum(values) == values + Descending(values);
    forall i | 0 <= i < n
      ensures Strings(es)[i] == JStr(values[i]) && Strings(es)[n + i] == JStr("-" + values[i])
    {
      assert es[i] == es[..n][i];
    }
  }
}
