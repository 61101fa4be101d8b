/**
 * `CursorPaginatorSchema::create`: the reusable `CursorPaginator` schema
 * component, `{name, data}`, where `data` is a JSON Schema object with a
 * required string `cursor` and an optional integer `size`.
 */
module CursorPaginatorSchema {
  import opened Json

  const Name := "CursorPaginator"

  const CursorProperty := JObj([
    ("type", JStr("string")),
    ("description", JStr("The cursor to start from. If not specified, the first page is returned."))
  ])

  const SizeProperty := JObj([
    ("type", JStr("integer")),
    ("description", JStr("The number of items to return per page. If not specified, the default page size is used."))
  ])

  const Properties := JObj([("cursor", CursorProperty), ("size", SizeProperty)])

  /** The JSON Schema held under `data`. */
  const Data := JObj([("type", JStr("object")), ("required", JArr([JStr("cursor")])), ("properties", Properties)])

  /**
   * A JSON Schema object whose `required` list names only keys that its
   * `properties` declares.
   */
  predicate RequiredAreDeclared(schema: Json)
  {
    match (Get(schema, "required"), Get(schema, "properties"))
    case (Some(JArr(required)), Some(JObj(properties))) =>
      forall x :: x in required ==> x.JStr? && x.str in Keys(properties)
    case _ => false
  }

  function Create(): (r: Json)
    ensures r.JObj? && Keys(r.members) == ["name", "data"]
    ensures At(r, ["name"]) == Some(JStr(Name))
    ensures At(r, ["data"]) == Some(Data)
    ensures At(r, ["data", "type"]) == Some(JStr("object"))
    ensures At(r, ["data", "required"]) == Some(JArr([JStr("cursor")]))
    ensures At(r, ["data"]).Some? && RequiredAreDeclared(At(r, ["data"]).value)
    ensures At(r, ["data", "properties", "cursor", "type"]) == Some(JStr("string"))
    ensures At(r, ["data", "properties", "size", "type"]) == Some(JStr("integer"))
    ensures At(r, ["data", "properties"]) == Some(Properties) && Keys(Properties.members) == ["cursor", "size"]
  {
    var r := JObj([("name", JStr(Name)), ("data", Data)]);
    FindAt(r.members, 0);
    FindAt(r.members, 1);
    DataMembers();
    PropertiesMembers();
    assert ["data", "type"][1..] == ["type"];
    assert ["data", "required"][1..] == ["required"];
    assert ["data", "properties"][1..] == ["properties"];
    assert ["data", "properties", "cursor", "type"][1..] == ["properties", "cursor", "type"];
    assert ["properties", "cursor", "type"][1..] == ["cursor", "type"];
    assert ["cursor", "type"][1..] == ["type"];
    assert ["data", "properties", "size", "type"][1..] == ["properties", "size", "type"];
    assert ["properties", "size", "type"][1..] == ["size", "type"];
    assert ["size", "type"][1..] == ["type"];
    assert ["type"][1..] == [];
    r
  }

  lemma DataMembers()
    ensures Get(Data, "type") == Some(JStr("object"))
    ensures Get(Data, "required") == Some(JArr([JStr("cursor")]))
    ensures Get(Data, "properties") == Some(Properties)
  {
    FindAt(Data.members, 0);
    FindAt(Data.members, 1);
    FindAt(Data.members, 2);
  }

  lemma PropertiesMembers()
    ensures Keys(Properties.members) == ["cursor", "size"]
    ensures Get(Properties, "cursor") == Some(CursorProperty)
    ensures Get(Properties, "size") == Some(SizeProperty)
    ensures Get(CursorProperty, "type") == Some(JStr("string"))
    ensures Get(SizeProperty, "type") == Some(JStr("integer"))
  {
    FindAt(Properties.members, 0);
    FindAt(Properties.members, 1);
    FindAt(CursorProperty.members, 0);
    FindAt(SizeProperty.members, 0);
  }
}
