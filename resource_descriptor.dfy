/**
 * What the four resource-map content descriptors (fields, filters,
 * relationships, sorts) have in common: a loop over an ordered map from
 * resource name to a list of strings that fills a `properties` dictionary
 * one resource at a time, then `null` when that dictionary stayed empty and
 * otherwise `{name, description, schema: {type: "object", properties}}`.
 *
 * The builders differ only in the shape of each property, captured by
 * `Shape`: whether it carries a `name` sub-key, and whether its enum is the
 * list itself or the list followed by its descending (`-`-prefixed) twins.
 */
module ResourceDescriptor {
  import opened Json

  /** A PHP `array<string, array<int, string>>`: resource name to its list. */
  type ResourceMap = seq<(string, seq<string>)>

  datatype Shape = Shape(withName: bool, withDescending: bool)

  /** `'-'.$sort` for every entry, in order: the JSON:API descending marker. */
  function Descending(values: seq<string>): (r: seq<string>)
    ensures |r| == |values|
    ensures forall i :: 0 <= i < |values| ==> r[i] == "-" + values[i]
  {
    seq(|values|, i requires 0 <= i < |values| => "-" + values[i])
  }

  /** `[...$values, ...Arr::map($values, fn ($s) => '-'.$s)]`. */
  function SortEnum(values: seq<string>): (r: seq<string>)
    ensures |r| == 2 * |values|
    ensures r[..|values|] == values
    ensures forall i :: 0 <= i < |values| ==> r[|values| + i] == "-" + r[i]
    ensures forall s :: s in r <==> s in values || exists v :: v in values && s == "-" + v
  {
    var r := values + Descending(values);
    assert forall s :: s in Descending(values) ==> exists v :: v in values && s == "-" + v by {
      forall s | s in Descending(values) ensures exists v :: v in values && s == "-" + v {
        var i :| 0 <= i < |values| && Descending(values)[i] == s;
        assert values[i] in values;
      }
    }
    assert forall v :: v in values ==> "-" + v in Descending(values) by {
      forall v | v in values ensures "-" + v in Descending(values) {
        var i :| 0 <= i < |values| && values[i] == v;
        assert Descending(values)[i] == "-" + v;
      }
    }
    r
  }

  function EnumOf(shape: Shape, values: seq<string>): seq<string>
  {
    if shape.withDescending then SortEnum(values) else values
  }

  /** The entry built for one resource inside the loop. */
  function Property(shape: Shape, resource: string, values: seq<string>): Json
  {
    var entries := [
      ("type", JStr("array")),
      ("items", JObj([("type", JStr("string")), ("enum", JArr(Strings(EnumOf(shape, values))))]))
    ];
    JObj(if shape.withName then [("name", JStr(resource))] + entries else entries)
  }

  /**
   * The `properties` dictionary after the loop has visited every entry of
   * `m`: each visit is `$properties[$resource] = ...`.
   */
  function Properties(shape: Shape, m: ResourceMap): (ps: seq<(string, Json)>)
    ensures ps == [] <==> m == []
  {
    if m == [] then []
    else
      var (resource, values) := m[|m| - 1];
      Put(Properties(shape, m[..|m| - 1]), resource, Property(shape, resource, values))
  }

  /** With distinct resource names, the dictionary's keys are the names in input order. */
  lemma {:induction false} PropertiesKeys(shape: Shape, m: ResourceMap)
    requires DistinctKeys(m)
    ensures Keys(Properties(shape, m)) == Keys(m)
  {
    if m != [] {
      var init := m[..|m| - 1];
      var (resource, values) := m[|m| - 1];
      assert init + [(resource, values)] == m;
      DistinctInit(m);
      PropertiesKeys(shape, init);
      KeysAppend(init, resource, values);
      KeysAppend(Properties(shape, init), resource, Property(shape, resource, values));
    }
  }

  /** The content descriptor, or `None` for PHP's `null`. */
  function Descriptor(name: string, description: string, shape: Shape, m: ResourceMap): (r: Option<Json>)
    ensures r.None? <==> m == []
  {
    var properties := Properties(shape, m);
    if properties == [] then None
    else
      Some(JObj([
        ("name", JStr(name)),
        ("description", JStr(description)),
        ("schema", JObj([("type", JStr("object")), ("properties", JObj(properties))]))
      ]))
  }

  /** The loop every resource-map builder runs, then its emptiness check. */
  method Build(name: string, description: string, shape: Shape, m: ResourceMap) returns (r: Option<Json>)
    ensures r == Descriptor(name, description, shape, m)
  {
    var properties: seq<(string, Json)> := [];
    var i := 0;
    while i < |m|
      invariant 0 <= i <= |m|
      invariant properties == Properties(shape, m[..i])
    {
      var (resource, values) := m[i];
      assert m[..i + 1][..i] == m[..i];
      assert Properties(shape, m[..i + 1]) == Put(Properties(shape, m[..i]), resource, Property(shape, resource, values));
      properties := Put(properties, resource, Property(shape, resource, values));
      i := i + 1;
    }
    assert m[..|m|] == m;
    if properties == [] {
      return None;
    }
    assert properties == Properties(shape, m);
    r := Some(JObj([
      ("name", JStr(name)),
      ("description", JStr(description)),
      ("schema", JObj([("type", JStr("object")), ("properties", JObj(properties))]))
    ]));
  }

  /**
   * With distinct resource names, `properties[$resource]` is exactly the
   * entry built from that resource's list, and there is no entry for a
   * name that is not in the input.
   */
  lemma {:induction false} FindProperty(shape: Shape, m: ResourceMap, resource: string)
    requires DistinctKeys(m)
    ensures Find(Properties(shape, m), resource)
         == match Find(m, resource)
            case None => None
            case Some(values) => Some(Property(shape, resource, values))
  {
    if m != [] {
      var init := m[..|m| - 1];
      var (k, values) := m[|m| - 1];
      assert init + [(k, values)] == m;
      DistinctInit(m);
      FindKeys(init, resource);
      FindAppend(init, k, values, resource);
      FindPut(Properties(shape, init), k, Property(shape, k, values), resource);
      FindProperty(shape, init, resource);
    }
  }

  /** The `schema` member of a non-empty descriptor. */
  lemma SchemaOf(name: string, description: string, shape: Shape, m: ResourceMap)
    requires m != []
    ensures Descriptor(name, description, shape, m).Some?
    ensures var d := Descriptor(name, description, shape, m).value;
      && d.JObj? && DistinctKeys(d.members)
      && Get(d, "schema") == Some(JObj([("type", JStr("object")), ("properties", JObj(Properties(shape, m)))]))
  {
    var schema := JObj([("type", JStr("object")), ("properties", JObj(Properties(shape, m)))]);
    var members := [("name", JStr(name)), ("description", JStr(description)), ("schema", schema)];
    assert Descriptor(name, description, shape, m) == Some(JObj(members));
    assert DistinctKeys(members);
    FindAt(members, 2);
  }

  /** `schema.properties` of a non-empty descriptor. */
  lemma PropertiesOf(name: string, description: string, shape: Shape, m: ResourceMap)
    requires m != []
    ensures Descriptor(name, description, shape, m).Some?
    ensures At(Descriptor(name, description, shape, m).value, ["schema", "properties"])
         == Some(JObj(Properties(shape, m)))
  {
    var d := Descriptor(name, description, shape, m).value;
    SchemaOf(name, description, shape, m);
    var schema := d.members[2].1;
    FindAt(schema.members, 1);
    assert ["schema", "properties"][1..] == ["properties"];
    assert ["properties"][1..] == [];
  }

  /**
   * The header of a non-empty descriptor, and its `schema.properties`
   * dictionary whose keys are the input's resource names in input order.
   */
  lemma DescriptorLayout(name: string, description: string, shape: Shape, m: ResourceMap)
    requires m != []
    requires DistinctKeys(m)
    ensures Descriptor(name, description, shape, m).Some?
    ensures var d := Descriptor(name, description, shape, m).value;
      && d.JObj? && Keys(d.members) == ["name", "description", "schema"]
      && At(d, ["name"]) == Some(JStr(name))
      && At(d, ["description"]) == Some(JStr(description))
      && At(d, ["schema", "type"]) == Some(JStr("object"))
      && At(d, ["schema", "properties"]) == Some(JObj(Properties(shape, m)))
      && Keys(Properties(shape, m)) == Keys(m)
  {
    var ps := Properties(shape, m);
    var d := Descriptor(name, description, shape, m).value;
    SchemaOf(name, description, shape, m);
    PropertiesOf(name, description, shape, m);
    PropertiesKeys(shape, m);
    FindAt(d.members, 0);
    FindAt(d.members, 1);
    assert ["schema", "type"][1..] == ["type"];
    var schema := d.members[2].1;
    FindAt(schema.members, 0);
  }

  /**
   * `schema.properties[$resource]` of a non-empty descriptor: the entry
   * built from the resource's list when the resource is in the input,
   * absent otherwise.
   */
  lemma PropertyAt(name: string, description: string, shape: Shape, m: ResourceMap, resource: string)
    requires m != []
    requires DistinctKeys(m)
    ensures Descriptor(name, description, shape, m).Some?
    ensures At(Descriptor(name, description, shape, m).value, ["schema", "properties", resource])
         == match Find(m, resource)
            case None => None
            case Some(values) => Some(Property(shape, resource, values))
  {
    var d := Descriptor(name, description, shape, m).value;
    var ps := Properties(shape, m);
    FindProperty(shape, m, resource);
    PropertiesOf(name, description, shape, m);
    AtConcat(d, ["schema", "properties"], [resource]);
    assert ["schema", "properties"] + [resource] == ["schema", "properties", resource];
    assert [resource][1..] == [];
  }

  /** Reading one property back: its keys, `name`, `type`, `items.type` and `items.enum`. */
  lemma PropertyParts(shape: Shape, resource: string, values: seq<string>)
    ensures var p := Property(shape, resource, values);
      && p.JObj?
      && Keys(p.members) == (if shape.withName then ["name", "type", "items"] else ["type", "items"])
      && At(p, ["name"]) == (if shape.withName then Some(JStr(resource)) else None)
      && At(p, ["type"]) == Some(JStr("array"))
      && At(p, ["items", "type"]) == Some(JStr("string"))
      && At(p, ["items", "enum"]) == Some(JArr(Strings(EnumOf(shape, values))))
  {
    var p := Property(shape, resource, values);
    var items := JObj([("type", JStr("string")), ("enum", JArr(Strings(EnumOf(shape, values))))]);
    var offset := if shape.withName then 1 else 0;
    assert p.members[offset] == ("type", JStr("array"));
    assert p.members[offset + 1] == ("items", items);
    FindAt(p.members, offset);
    FindAt(p.members, offset + 1);
    if shape.withName {
      FindAt(p.members, 0);
    } else {
      FindKeys(p.members, "name");
    }
    FindAt(items.members, 0);
    FindAt(items.members, 1);
    AtConcat(p, ["items"], ["type"]);
    AtConcat(p, ["items"], ["enum"]);
    assert ["items"] + ["type"] == ["items", "type"];
    assert ["items"] + ["enum"] == ["items", "enum"];
  }

  /**
   * For a resource of the input: `schema.properties[$resource]` is the
   * property built from its list, and `...['items']['enum']` is that list
   * after the builder's enum transform.
   */
  lemma ResourcePropertyAt(name: string, description: string, shape: Shape, m: ResourceMap,
                           resource: string, values: seq<string>)
    requires DistinctKeys(m)
    requires Find(m, resource) == Some(values)
    ensures Descriptor(name, description, shape, m).Some?
    ensures var d := Descriptor(name, description, shape, m).value;
      && At(d, ["schema", "properties", resource]) == Some(Property(shape, resource, values))
      && At(d, ["schema", "properties", resource, "items", "enum"])
         == Some(JArr(Strings(EnumOf(shape, values))))
  {
    var d := Descriptor(name, description, shape, m).value;
    PropertyAt(name, description, shape, m, resource);
    PropertyParts(shape, resource, values);
    AtConcat(d, ["schema", "properties", resource], ["items", "enum"]);
    assert ["schema", "properties", resource] + ["items", "enum"]
        == ["schema", "properties", resource, "items", "enum"];
  }
}
