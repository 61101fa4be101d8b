/**
 * `CursorPaginatorContentDescriptor::create`: the constant `page` parameter,
 * whose schema is a JSON Pointer reference to the reusable
 * `CursorPaginator` schema component.
 */
module CursorPaginatorContentDescriptor {
  import opened Json
  import CursorPaginatorSchema
  import ValueObject

  const Name := "page"
  const Description := "The page to return. If not specified, the first page is returned."
  const Reference := "#/components/schemas/CursorPaginator"

  /** Where OpenRPC keeps reusable schemas, as a JSON Pointer prefix. */
  const SchemasPointer := "#/components/schemas"

  function Create(): (r: Json)
    ensures r.JObj? && Keys(r.members) == ["name", "description", "schema"]
    ensures Get(r, "name") == Some(JStr(Name))
    ensures Get(r, "description") == Some(JStr(Description))
    ensures Get(r, "schema") == Some(JObj([("$ref", JStr(Reference))]))
  {
    var r := JObj([("name", JStr(Name)), ("description", JStr(Description)), ("schema", JObj([("$ref", JStr(Reference))]))]);
    FindAt(r.members, 0);
    FindAt(r.members, 1);
    FindAt(r.members, 2);
    r
  }

  /** The reference token after the last `/` of a JSON Pointer. */
  function LastSegment(pointer: string): (s: string)
    ensures '/' !in s
    ensures |s| <= |pointer| && pointer[|pointer| - |s|..] == s
    ensures |s| < |pointer| ==> pointer[|pointer| - |s| - 1] == '/'
  {
    if pointer == [] || pointer[|pointer| - 1] == '/' then []
    else
      var init := pointer[..|pointer| - 1];
      var s := LastSegment(init);
      assert init[|init| - |s|..] + [pointer[|pointer| - 1]] == pointer[|pointer| - |s| - 1..];
      s + [pointer[|pointer| - 1]]
  }

  lemma {:induction false} LastSegmentOfChild(parent: string, token: string)
    requires '/' !in token
    ensures LastSegment(parent + "/" + token) == token
    decreases |token|
  {
    var p := parent + "/" + token;
    if token != [] {
      var init := token[..|token| - 1];
      assert p[..|p| - 1] == parent + "/" + init;
      assert p[|p| - 1] == token[|token| - 1] != '/';
      LastSegmentOfChild(parent, init);
    } else {
      assert p[|p| - 1] == '/';
    }
  }

  /** The reference names a child of the reusable schemas: `CursorPaginator`. */
  lemma ReferenceToken()
    ensures LastSegment(Reference) == CursorPaginatorSchema.Name
    ensures Reference == SchemasPointer + "/" + LastSegment(Reference)
  {
    assert Reference == SchemasPointer + "/" + CursorPaginatorSchema.Name;
    LastSegmentOfChild(SchemasPointer, CursorPaginatorSchema.Name);
  }

  /**
   * The `$ref` resolves: it is the reusable-schemas pointer followed by the
   * name `CursorPaginatorSchema::create` gives, and the `SchemaValue` built
   * from that schema's name and data renders the data under exactly that
   * name.
   */
  lemma ReferenceResolves()
    ensures var schema := CursorPaginatorSchema.Create();
      && At(schema, ["name"]) == Some(JStr(CursorPaginatorSchema.Name))
      && At(Create(), ["schema", "$ref"]) == Some(JStr(SchemasPointer + "/" + CursorPaginatorSchema.Name))
      && At(schema, ["data"]) == Some(CursorPaginatorSchema.Data)
      && ValueObject.SchemaValue(CursorPaginatorSchema.Name, At(schema, ["data"]).value).ToArray()
         == JObj([("CursorPaginator", At(schema, ["data"]).value)])
  {
    assert Reference == SchemasPointer + "/" + CursorPaginatorSchema.Name;
    FindAt(Create().members[2].1.members, 0);
    assert ["schema", "$ref"][1..] == ["$ref"];
    assert ["$ref"][1..] == [];
  }
}
