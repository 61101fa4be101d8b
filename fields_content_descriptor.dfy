/**
 * `FieldsContentDescriptor::create`: the JSON:API sparse-fieldset parameter.
 * Each resource becomes a property listing its selectable fields, and the
 * property repeats the resource name under `name`.
 */
module FieldsContentDescriptor {
  import opened Json
  import opened ResourceDescriptor

  const Name := "fields"
  const Description := "The fields to return for each resource. If not specified, all fields are returned."
  const FieldsShape := Shape(withName := true, withDescending := false)

  /** The descriptor `create($fields)` returns; `None` is PHP's `null`. */
  function Spec(fields: ResourceMap): Option<Json>
  {
    Descriptor(Name, Description, FieldsShape, fields)
  }

  method Create(fields: ResourceMap) returns (r: Option<Json>)
    ensures r == Spec(fields)
    ensures r.None? <==> fields == []
  {
    r := Build(Name, Description, FieldsShape, fields);
  }

  /**
   * A non-empty descriptor is named "fields", carries the fixed description,
   * has an object schema, and its properties are the input's resources in
   * input order.
   */
  lemma Header(fields: ResourceMap)
    requires fields != []
    requires DistinctKeys(fields)
    ensures Spec(fields).Some?
    ensures var d := Spec(fields).value;
      && Keys(d.members) == ["name", "description", "schema"]
      && At(d, ["name"]) == Some(JStr("fields"))
      && At(d, ["description"]) == Some(JStr(Description))
      && At(d, ["schema", "type"]) == Some(JStr("object"))
      && At(d, ["schema", "properties"]) == Some(JObj(Properties(FieldsShape, fields)))
      && Keys(Properties(FieldsShape, fields)) == Keys(fields)
  {
    DescriptorLayout(Name, Description, FieldsShape, fields);
  }

  /**
   * The property of a resource of the input, and its `items.enum`: the
   * resource's field list verbatim, in order.
   */
  lemma ResourceProperty(fields: ResourceMap, resource: string, values: seq<string>)
    requires DistinctKeys(fields)
    requires Find(fields, resource) == Some(values)
    ensures Spec(fields).Some?
    ensures var d := Spec(fields).value;
      && At(d, ["schema", "properties", resource]) == Some(JObj([
           ("name", JStr(resource)), ("type", JStr("array")),
           ("items", JObj([("type", JStr("string")), ("enum", JArr(Strings(values)))]))
         ]))
      && At(d, ["schema", "properties", resource, "items", "enum"]) == Some(JArr(Strings(values)))
  {
    ResourcePropertyAt(Name, Description, FieldsShape, fields, resource, values);
    assert Property(FieldsShape, resource, values) == JObj([
      ("name", JStr(resource)), ("type", JStr("array")),
      ("items", JObj([("type", JStr("string")), ("enum", JArr(Strings(values)))]))
    ]);
  }

  /** The map `['users' => ['id', 'name', 'email'], 'posts' => ['id', 'title']]`. */
  const UsersAndPosts: ResourceMap := [("users", ["id", "name", "email"]), ("posts", ["id", "title"])]

  /**
   * For `UsersAndPosts` the descriptor is named "fields", its schema is an
   * object, its properties are users then posts, and each enum is that
   * resource's field list.
   */
  lemma UsersAndPostsExample()
    ensures Spec(UsersAndPosts).Some?
    ensures At(Spec(UsersAndPosts).value, ["name"]) == Some(JStr("fields"))
    ensures At(Spec(UsersAndPosts).value, ["schema", "type"]) == Some(JStr("object"))
    ensures Keys(Properties(FieldsShape, UsersAndPosts)) == ["users", "posts"]
    ensures At(Spec(UsersAndPosts).value, ["schema", "properties", "users", "items", "enum"])
         == Some(JArr([JStr("id"), JStr("name"), JStr("email")]))
    ensures At(Spec(UsersAndPosts).value, ["schema", "properties", "posts", "items", "enum"])
         == Some(JArr([JStr("id"), JStr("title")]))
  {
    var m := UsersAndPosts;
    assert DistinctKeys(m) && Keys(m) == ["users", "posts"];
    assert Find(m, "users") == Some(["id", "name", "email"]) && Find(m, "posts") == Some(["id", "title"]) by {
      FindAt(m, 0);
      FindAt(m, 1);
    }
    Header(m);
    ResourceProperty(m, "users", ["id", "name", "email"]);
    ResourceProperty(m, "posts", ["id", "title"]);
    assert Strings(["id", "name", "email"]) == [JStr("id"), JStr("name"), JStr("email")];
    assert Strings(["id", "title"]) == [JStr("id"), JStr("title")];
  }
}
