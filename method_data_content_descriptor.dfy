/**
 * `MethodDataContentDescriptor`: the `data` parameter of a method, whose
 * schema is a JSON Schema supplied by the caller and embedded unchanged.
 */
module MethodDataContentDescriptor {
  import opened Json

  const Name := "data"
  const Description := "The data that will be passed to the method."

  /** The context `getValidationRules` is called with: an empty PHP array. */
  const EmptyContext: PhpArray := JObj([])

  /**
   * `create(array $schema)`: never null, exactly the keys `name`,
   * `description` and `schema`, and the schema passed through as given.
   */
  function Create(schema: PhpArray): (r: Json)
    ensures r.JObj? && Keys(r.members) == ["name", "description", "schema"]
    ensures Get(r, "name") == Some(JStr(Name))
    ensures Get(r, "description") == Some(JStr(Description))
    ensures Get(r, "schema") == Some(schema)
  {
    var r := JObj([("name", JStr(Name)), ("description", JStr(Description)), ("schema", schema)]);
    FindAt(r.members, 0);
    FindAt(r.members, 1);
    FindAt(r.members, 2);
    r
  }

  /**
   * `createFromData($data)`: the data class's static `getValidationRules`,
   * passed here as a function, is asked for its schema with an empty
   * context, and that schema becomes the descriptor's schema. Both the
   * context and the rules are PHP arrays (`array $context`, `create(array)`).
   */
  function CreateFromData(getValidationRules: PhpArray -> PhpArray): (r: Json)
    ensures Get(r, "name") == Some(JStr(Name))
    ensures Get(r, "schema") == Some(getValidationRules(EmptyContext))
  {
    Create(getValidationRules(EmptyContext))
  }

  /** Two data classes give the same descriptor exactly when they give the same rules. */
  lemma CreateFromDataInjective(f: PhpArray -> PhpArray, g: PhpArray -> PhpArray)
    ensures CreateFromData(f) == CreateFromData(g) <==> f(EmptyContext) == g(EmptyContext)
  {
  }
}
